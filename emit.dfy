// What the JSON and YAML dumpers hand to their serialisation library, and the
// context filter they share (dump/json.py, dump/yaml.py, dump/utils.py).

module Emit {
  import opened Values
  import opened Defs

  /** A value ready for serialisation. `Literal` is a `TextNode` (a string
      dumped in YAML block-literal style); `Wrapped` is a `ChunkIterWrapper`,
      a list of chunks left for a representer to expand; a mapping keeps its
      keys in insertion order. */
  datatype Node =
    | Plain(v: Value)
    | Literal(s: string)
    | Wrapped(chunks: Value)
    | Mapping(entries: seq<(string, Node)>)
    | Items(elems: seq<Node>)

  function KeysOf(es: seq<(string, Node)>): (r: seq<string>)
    ensures |r| == |es| && forall k :: 0 <= k < |es| ==> r[k] == es[k].0
  {
    seq(|es|, k requires 0 <= k < |es| => es[k].0)
  }

  /** The data a node stands for once serialised and parsed back: a
      block literal is a string, a mapping a dict, a wrapper its chunks. */
  function ToValue(n: Node): Value
    decreases n, 1
  {
    match n
    case Plain(v) => v
    case Literal(s) => Str(s)
    case Wrapped(v) => v
    case Mapping(es) => Dict(FieldsOf(es))
    case Items(ns) => List(seq(|ns|, k requires 0 <= k < |ns| => ToValue(ns[k])))
  }

  /** The dict a mapping's entries build: a later key wins. */
  function FieldsOf(es: seq<(string, Node)>): (m: map<string, Value>)
    decreases es, 0
  {
    if |es| == 0 then map[]
    else
      var last := es[|es| - 1];
      FieldsOf(es[..|es| - 1])[last.0 := EntryValue(last)]
  }

  /** The value of one mapping entry. */
  function EntryValue(e: (string, Node)): Value
    decreases e, 2
  {
    ToValue(e.1)
  }

  /** A mapping's dict holds exactly its entry keys. */
  lemma {:induction false} FieldsOfKeys(es: seq<(string, Node)>)
    ensures FieldsOf(es).Keys == set k | 0 <= k < |es| :: es[k].0
  {
    if |es| > 0 {
      var init := es[..|es| - 1];
      FieldsOfKeys(init);
      var all := set k | 0 <= k < |es| :: es[k].0;
      var before := set k | 0 <= k < |init| :: init[k].0;
      assert all == before + {es[|es| - 1].0} by {
        forall x | x in all ensures x in before + {es[|es| - 1].0} {
          var k :| 0 <= k < |es| && es[k].0 == x;
          if k < |init| {
            assert init[k] == es[k];
          }
        }
        forall x | x in before ensures x in all {
          var k :| 0 <= k < |init| && init[k].0 == x;
          assert es[k] == init[k];
        }
      }
    }
  }

  /** A key takes the value of its last entry. */
  lemma {:induction false} FieldsOfLast(es: seq<(string, Node)>, k: nat)
    requires k < |es| && forall j :: k < j < |es| ==> es[j].0 != es[k].0
    ensures es[k].0 in FieldsOf(es) && FieldsOf(es)[es[k].0] == ToValue(es[k].1)
  {
    var init := es[..|es| - 1];
    if k < |es| - 1 {
      assert init[k] == es[k];
      forall j | k < j < |init| ensures init[j].0 != init[k].0 {
        assert init[j] == es[j];
      }
      FieldsOfLast(init, k);
    }
  }

  lemma FieldsOfSnoc(es: seq<(string, Node)>, key: string, n: Node)
    ensures FieldsOf(es + [(key, n)]) == FieldsOf(es)[key := ToValue(n)]
  {
    assert (es + [(key, n)])[..|es|] == es;
  }

  // -------------------------------------------------------------------
  // Context filtering

  /** `ctx_pos` (keep only `fields`) or not (keep all but `fields`). */
  datatype ContextFilter = ContextFilter(fields: set<string>, keep: bool)

  /** The encoder's and the representer's constructor: no list of context
      fields drops the structure fields, any list (even an empty one) keeps
      exactly the fields listed. */
  function MakeFilter(contextFields: Option<seq<string>>): (f: ContextFilter)
    ensures f.keep <==> contextFields.Some?
    ensures forall x :: x in f.fields <==> x in (if contextFields.Some? then contextFields.value else CTX_FIELDS)
  {
    if contextFields.Some? then ContextFilter(set x | x in contextFields.value, true)
    else ContextFilter(set x | x in CTX_FIELDS, false)
  }

  /** The two dict comprehensions: a field of the context is kept exactly
      when its being listed agrees with the mode, with its value unchanged;
      nothing else is added. */
  function Filtered(f: ContextFilter, ctx: map<string, Value>): (r: map<string, Value>)
    ensures forall k :: k in r ==> k in ctx && r[k] == ctx[k]
    ensures forall k :: k in ctx ==> (k in r <==> (k in f.fields) == f.keep)
  {
    if f.keep then map k | k in f.fields && k in ctx :: ctx[k]
    else map k | k in ctx && k !in f.fields :: ctx[k]
  }

  /** Keeping a set of fields and dropping the same set split the context
      between them. */
  lemma FilterSplits(s: set<string>, ctx: map<string, Value>)
    ensures Filtered(ContextFilter(s, true), ctx).Keys !! Filtered(ContextFilter(s, false), ctx).Keys
    ensures Filtered(ContextFilter(s, true), ctx).Keys + Filtered(ContextFilter(s, false), ctx).Keys == ctx.Keys
  {
  }

  /** No list of context fields never lets a structure field through; an
      empty list lets nothing through. */
  lemma FilterModes(ctx: map<string, Value>)
    ensures forall k :: k in Filtered(MakeFilter(None), ctx) <==> k in ctx && k !in CTX_FIELDS
    ensures Filtered(MakeFilter(Some([])), ctx) == map[]
  {
  }

  /** `f in ctx` for a listed field and a truthy context that is not a
      dict: a substring of a string, an element of a list; testing a scalar
      is a TypeError, reported here as "found". */
  predicate FoundIn(fields: set<string>, ctx: Value)
  {
    exists x :: x in fields &&
      if ctx.Str? then Contains(ctx.s, x) else if ctx.List? then Str(x) in ctx.items else true
  }

  /** `{f: ctx[f] for f in ctx if f not in fields}` over a list, from
      element `i` on: listed strings are skipped; the first other element is
      used as an index, which fails for a string, a list, a dict or None
      (TypeError) and for an integer out of range (IndexError). An integer in
      range would give an int-keyed entry, which the string-keyed entries here
      cannot hold, so it is a TypeError in the model. */
  function DropFromList(xs: seq<Value>, fields: set<string>, i: nat): (r: Result<seq<(string, Node)>>)
    requires i <= |xs|
    ensures r.Ok? <==> forall k :: i <= k < |xs| ==> xs[k].Str? && xs[k].s in fields
    ensures r.Ok? ==> r.value == []
    ensures r.Err? ==> r.error == PyError(TypeError) || r.error == PyError(IndexError)
    decreases |xs| - i
  {
    if i == |xs| then Ok([])
    else match xs[i]
      case Str(x) => if x in fields then DropFromList(xs, fields, i + 1) else Err(PyError(TypeError))
      case Int(n) => if -|xs| <= n < |xs| then Err(PyError(TypeError)) else Err(PyError(IndexError))
      case Bool(b) => if (if b then 1 else 0) < |xs| then Err(PyError(TypeError)) else Err(PyError(IndexError))
      case _ => Err(PyError(TypeError))
  }

  /** The context comprehension on a truthy context that is not a dict. With
      fields listed it is empty unless some field is found, and then
      indexing a string or a list by a string is a TypeError. Otherwise the
      context is iterated: a scalar cannot be, a string yields characters,
      which index nothing, and a list goes element by element. */
  function NonDictContext(f: ContextFilter, ctx: Value): (r: Result<seq<(string, Node)>>)
    requires Truthy(ctx) && !ctx.Dict?
    ensures r.Ok? ==> r.value == []
    ensures f.keep ==> r == (if FoundIn(f.fields, ctx) then Err(PyError(TypeError)) else Ok([]))
    ensures !f.keep && !ctx.List? ==> (r.Ok? <==> ctx.Str? && forall k :: 0 <= k < |ctx.s| ==> [ctx.s[k]] in f.fields)
    ensures r.Err? ==> r.error == PyError(TypeError) || (r.error == PyError(IndexError) && !f.keep && ctx.List?)
  {
    if f.keep then (if FoundIn(f.fields, ctx) then Err(PyError(TypeError)) else Ok([]))
    else if ctx.Str? then
      if forall k :: 0 <= k < |ctx.s| ==> [ctx.s[k]] in f.fields then Ok([]) else Err(PyError(TypeError))
    else if ctx.List? then DropFromList(ctx.items, f.fields, 0)
    else Err(PyError(TypeError))
  }

  /** The `context` entry of a serialised chunk: none for an absent or empty
      context, none when the filter leaves nothing, else the filtered
      fields. */
  function ContextEntry(f: ContextFilter, chunk: map<string, Value>): (r: Result<seq<(string, Node)>>)
    ensures ("context" !in chunk || !Truthy(chunk["context"])) ==> r == Ok([])
    ensures "context" in chunk && chunk["context"].Dict? ==>
      r == Ok(if |Filtered(f, chunk["context"].fields)| == 0 then []
              else [("context", Plain(Dict(Filtered(f, chunk["context"].fields))))])
    ensures "context" in chunk && Truthy(chunk["context"]) && !chunk["context"].Dict? ==>
      r == NonDictContext(f, chunk["context"])
    ensures f.keep && f.fields == {} ==> r == Ok([])
    ensures r.Ok? && |r.value| > 0 ==> "context" in chunk && chunk["context"].Dict?
  {
    var ctx := Get(chunk, "context", Null);
    if !Truthy(ctx) then Ok([])
    else if !ctx.Dict? then NonDictContext(f, ctx)
    else
      var fields := Filtered(f, ctx.fields);
      if |fields| == 0 then Ok([]) else Ok([("context", Plain(Dict(fields)))])
  }

  /** Non-dict contexts: nothing is written for a scalar when no field is
      listed, nor for a list that does not hold a listed field; a string
      holding a listed field cannot be indexed by it; an integer past the end
      of a list context is an IndexError once the structure fields are
      dropped. */
  lemma NonDictContextExamples()
    ensures ContextEntry(MakeFilter(Some([])), map["context" := Int(5)]) == Ok([])
    ensures ContextEntry(MakeFilter(Some(["lang"])), map["context" := List([Int(1)])]) == Ok([])
    ensures ContextEntry(MakeFilter(Some(["lang"])), map["context" := Str("language")]) == Err(PyError(TypeError))
    ensures ContextEntry(MakeFilter(None), map["context" := List([Int(7)])]) == Err(PyError(IndexError))
  {
    var f := MakeFilter(Some(["lang"]));
    assert f.fields == {"lang"};
    assert !FoundIn(f.fields, List([Int(1)]));
    assert StartsWith("language", "lang");
    assert FoundIn(f.fields, Str("language"));
  }
}
