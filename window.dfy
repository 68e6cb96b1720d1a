// The neighbour-context window shared by the chunk generators: chunks are
// released with a delay of one element so that each can carry the payload of
// the chunk before it ("before") and after it ("after") in its context.
//
// `WithNeighbours` is the reference definition of the stream; `Shift` and
// `Final` are the two branches of the generators' `__call__` (an element, and
// the final `None`); `Stream` drives them over a whole element sequence.

module Window {
  import opened Values

  /** A document chunk: id, payload and context. */
  datatype Chunk = Chunk(id: Value, data: Value, context: Value)

  /** Every chunk has a dict context (what the generators build whenever the
      document metadata is non-empty). */
  predicate AllDict(cs: seq<Chunk>)
  {
    forall i :: 0 <= i < |cs| ==> cs[i].context.Dict?
  }

  /** Writing one key of a dict context (non-dict contexts are left alone:
      the reference definition is only used on dict contexts). */
  function Put(ctx: Value, k: string, x: Value): Value
  {
    if ctx.Dict? then Dict(ctx.fields[k := x]) else ctx
  }

  /** Chunk `i` of `cs` as the stream releases it: its own context plus the
      previous payload under "before" (not for the first chunk) and the next
      payload under "after" (not for the last chunk). */
  function Neighboured(cs: seq<Chunk>, i: nat): (c: Chunk)
    requires i < |cs|
    ensures c.id == cs[i].id && c.data == cs[i].data
    ensures cs[i].context.Dict? ==> c.context.Dict?
    ensures cs[i].context.Dict? ==>
      c.context.fields.Keys == cs[i].context.fields.Keys
        + (if i > 0 then {"before"} else {}) + (if i + 1 < |cs| then {"after"} else {})
    ensures cs[i].context.Dict? && i > 0 ==> c.context.fields["before"] == cs[i - 1].data
    ensures cs[i].context.Dict? && i + 1 < |cs| ==> c.context.fields["after"] == cs[i + 1].data
    ensures cs[i].context.Dict? ==>
      forall k :: k in cs[i].context.fields && k != "before" && k != "after" ==> c.context.fields[k] == cs[i].context.fields[k]
  {
    var c := cs[i];
    var ctx1 := if i > 0 then Put(c.context, "before", cs[i - 1].data) else c.context;
    var ctx2 := if i + 1 < |cs| then Put(ctx1, "after", cs[i + 1].data) else ctx1;
    Chunk(c.id, c.data, ctx2)
  }

  /** The reference stream: every chunk, in order, with its neighbours. */
  function WithNeighbours(cs: seq<Chunk>): (r: seq<Chunk>)
    ensures |r| == |cs|
    ensures forall i :: 0 <= i < |cs| ==> r[i] == Neighboured(cs, i)
  {
    seq(|cs|, i requires 0 <= i < |cs| => Neighboured(cs, i))
  }

  // -------------------------------------------------------------------
  // Chunk ids

  /** The id rule shared by every generator: an explicit id is kept, a
      missing one (None) takes the next value of the counter. Returns the
      new counter and the id. */
  function NextId(counter: int, id: Value): (r: (int, Value))
    ensures id != Null ==> r == (counter, id)
    ensures id == Null ==> r == (counter + 1, Int(counter + 1))
  {
    if id == Null then (counter + 1, Int(counter + 1)) else (counter, id)
  }

  /** How many of the given ids are missing. */
  function Missing(ids: seq<Value>): (n: nat)
    ensures n <= |ids|
  {
    if |ids| == 0 then 0 else Missing(ids[..|ids| - 1]) + (if ids[|ids| - 1] == Null then 1 else 0)
  }

  /** The ids given to a run of elements, starting from `counter`. */
  function AssignIds(counter: int, ids: seq<Value>): (r: seq<Value>)
    ensures |r| == |ids|
    decreases |ids|
  {
    if |ids| == 0 then []
    else AssignIds(counter, ids[..|ids| - 1]) + [NextId(counter + Missing(ids[..|ids| - 1]), ids[|ids| - 1]).1]
  }

  /** `AssignIdsSpec` at one position. */
  lemma AssignIdsAt(counter: int, ids: seq<Value>, k: nat)
    requires k < |ids|
    ensures k < |AssignIds(counter, ids)|
    ensures AssignIds(counter, ids)[k] == if ids[k] != Null then ids[k] else Int(counter + 1 + Missing(ids[..k]))
  {
    AssignIdsSpec(counter, ids);
  }

  /** Explicit ids pass through; the k-th missing one becomes counter + k,
      so id-less elements are numbered consecutively and explicit ids never
      advance the counter. */
  lemma {:induction false} AssignIdsSpec(counter: int, ids: seq<Value>)
    ensures |AssignIds(counter, ids)| == |ids|
    ensures forall k :: 0 <= k < |ids| ==>
      AssignIds(counter, ids)[k] == if ids[k] != Null then ids[k] else Int(counter + 1 + Missing(ids[..k]))
  {
    if |ids| > 0 {
      var t := ids[..|ids| - 1];
      AssignIdsSpec(counter, t);
      forall k | 0 <= k < |t| ensures ids[..k] == t[..k] { }
    }
  }

  /** The generator's two slots. */
  datatype Window = Window(before: Option<Chunk>, current: Option<Chunk>)

  const Empty: Window := Window(None, None)

  /** One element: the first is only stored; the second releases the first
      with "after"; later ones release the held current chunk with "before"
      and "after", then shift the slots. Returns the new slots and the
      released chunk (or the error of a context that is not a dict, in which
      case the slots are unchanged). */
  function Shift(w: Window, c: Chunk): (r: (Window, Result<Option<Chunk>>))
    ensures r.1.Err? ==> r.0 == w && r.1.error == PyError(TypeError)
    ensures w.before.None? ==> r == (Window(Some(c), w.current), Ok(None))
    ensures w.before.Some? ==>
      (r.1.Ok? <==> (if w.current.None? then w.before.value else w.current.value).context.Dict?)
    ensures w.before.Some? && r.1.Ok? ==> r.1.value.Some? && r.0 == Window(r.1.value, Some(c))
    ensures w.before.Some? && r.1.Ok? ==>
      var held := if w.current.None? then w.before.value else w.current.value;
      var x := r.1.value.value;
      x.id == held.id && x.data == held.data && x.context.Dict? && held.context.Dict?
      && x.context.fields == (if w.current.None? then held.context.fields["after" := c.data]
                              else held.context.fields["before" := w.before.value.data]["after" := c.data])
  {
    if w.before.None? then
      (Window(Some(c), w.current), Ok(None))
    else if w.current.None? then
      match SetItem(w.before.value.context, "after", c.data)
      case Err(e) => (w, Err(e))
      case Ok(ctx) =>
        var ret := w.before.value.(context := ctx);
        (Window(Some(ret), Some(c)), Ok(Some(ret)))
    else
      match SetItem(w.current.value.context, "before", w.before.value.data)
      case Err(e) => (w, Err(e))
      case Ok(ctx1) =>
        var ret := w.current.value.(context := Dict(ctx1.fields["after" := c.data]));
        (Window(Some(ret), Some(c)), Ok(Some(ret)))
  }

  /** The final call (element None): nothing for an empty stream, the single
      chunk unchanged for a one-chunk stream, otherwise the held current chunk
      with "before". The slots are kept (a repeated flush repeats the answer). */
  function Final(w: Window): (r: (Window, Result<Option<Chunk>>))
    ensures r.0.before == w.before
    ensures r.1.Err? ==> r.0 == w && w.current.Some? && r.1.error == PyError(TypeError)
    ensures w.before.None? ==> r.1 == Ok(None)
    ensures w.before.Some? && w.current.None? ==> r.1 == Ok(w.before)
    ensures w.before.Some? && w.current.Some? ==> (r.1.Ok? <==> w.current.value.context.Dict?)
    ensures w.before.Some? && w.current.Some? && r.1.Ok? ==>
      r.1.value.Some? && w.current.value.context.Dict?
      && r.1.value.value == w.current.value.(context := Dict(w.current.value.context.fields["before" := w.before.value.data]))
  {
    if w.before.None? then (w, Ok(None))
    else if w.current.None? then (w, Ok(w.before))
    else
      match SetItem(w.current.value.context, "before", w.before.value.data)
      case Err(e) => (w, Err(e))
      case Ok(ctx) =>
        var ret := w.current.value.(context := ctx);
        (Window(w.before, Some(ret)), Ok(Some(ret)))
  }

  /** Pushing every chunk of `cs`, collecting what is released; the first
      error stops the run. */
  function Drive(w: Window, cs: seq<Chunk>): (r: (Window, Result<seq<Chunk>>))
    ensures |cs| == 0 ==> r == (w, Ok([]))
    ensures w == Empty && r.1.Ok? ==> |r.1.value| == (if |cs| == 0 then 0 else |cs| - 1)
    ensures w == Empty && r.1.Ok? && |cs| >= 1 ==>
      r.0.before.Some? && (r.0.current.Some? <==> |cs| >= 2)
    ensures w == Empty && r.1.Ok? && |cs| >= 2 ==> r.0.before == Some(r.1.value[|cs| - 2]) && r.0.current == Some(cs[|cs| - 1])
    decreases |cs|
  {
    if |cs| == 0 then (w, Ok([]))
    else
      DriveStep(Drive(w, cs[..|cs| - 1]), cs[|cs| - 1])
  }

  /** The last step of `Drive`: shift one chunk in after the run so far. */
  function DriveStep(prev: (Window, Result<seq<Chunk>>), c: Chunk): (Window, Result<seq<Chunk>>)
  {
    var (w1, r1) := prev;
    if r1.Err? then (w1, r1)
    else
      var (w2, o) := Shift(w1, c);
      match o
      case Err(e) => (w2, Err(e))
      case Ok(None) => (w2, r1)
      case Ok(Some(x)) => (w2, Ok(r1.value + [x]))
  }

  /** A whole session: push every chunk, then flush. */
  function Stream(cs: seq<Chunk>): Result<seq<Chunk>>
  {
    var (w, r) := Drive(Empty, cs);
    if r.Err? then r
    else
      match Final(w).1
      case Err(e) => Err(e)
      case Ok(None) => r
      case Ok(Some(x)) => Ok(r.value + [x])
  }

  // -------------------------------------------------------------------
  // A generator session over elements

  type Elem = map<string, Value>

  /** The context a context generator starts each chunk from: a fresh copy
      of the metadata views, updated with the element's own `context` as
      `dict.update` takes it. */
  function ElemContext(views: map<string, Value>, elem: Elem): (r: Result<Value>)
    ensures "context" !in elem ==> r == Ok(Dict(views))
    ensures r.Ok? <==> "context" !in elem || Updatable(elem["context"])
    ensures r.Ok? ==> r.value.Dict? && views.Keys <= r.value.fields.Keys
    ensures r.Ok? && "context" in elem && elem["context"].Dict? ==> r.value == Dict(Update(views, elem["context"].fields))
    ensures r.Ok? && "context" in elem && elem["context"].List? ==> r.value == Dict(Update(views, PairsDict(elem["context"].items)))
    ensures r.Ok? && "context" in elem && elem["context"].Str? ==> r.value == Dict(views)
    ensures r.Err? ==> "context" in elem && UpdateFrom(views, elem["context"]).Err? && r.error == UpdateFrom(views, elem["context"]).error
  {
    if "context" !in elem then Ok(Dict(views))
    else
      UpdateFromAccepts(views, elem["context"]);
      if elem["context"].List? then UpdatePairsSpec(views, elem["context"].items); ContextOf(views, elem["context"])
      else ContextOf(views, elem["context"])
  }

  function ContextOf(views: map<string, Value>, x: Value): Result<Value>
  {
    var m :- UpdateFrom(views, x);
    Ok(Dict(m))
  }

  /** An empty list as element context leaves the views as they are, a list
      of one pair sets that key, and a non-empty string fails. */
  lemma ElemContextShapes(views: map<string, Value>, data: Value)
    ensures ElemContext(views, map["data" := data, "context" := List([])]) == Ok(Dict(views))
    ensures ElemContext(views, map["data" := data, "context" := List([List([Str("a"), Int(1)])])]) == Ok(Dict(views["a" := Int(1)]))
    ensures ElemContext(views, map["data" := data, "context" := Str("ab")]) == Err(PyError(ValueError))
  {
    var pair := List([Str("a"), Int(1)]);
    assert PairsDict([pair]) == PairsDict([])["a" := Int(1)];
  }

  /** Well-formed elements: a payload, and a context, if any, that
      `dict.update` accepts. */
  predicate WellFormed(elems: seq<Elem>)
  {
    forall k :: 0 <= k < |elems| ==> "data" in elems[k] && ("context" in elems[k] ==> Updatable(elems[k]["context"]))
  }

  /** The `id` each element carries (None when absent). */
  function Ids(elems: seq<Elem>): (r: seq<Value>)
    ensures |r| == |elems|
    ensures forall k :: 0 <= k < |elems| ==> r[k] == Get(elems[k], "id", Null)
  {
    if |elems| == 0 then [] else Ids(elems[..|elems| - 1]) + [Get(elems[|elems| - 1], "id", Null)]
  }

  /** A chunk builder: from the id counter and an element, the new counter
      and the chunk. */
  type Builder = (int, Elem) -> (int, Result<Chunk>)

  /** Pushing every element: build its chunk, then shift it into the window;
      the first error stops the run. Returns the counter, the window and the
      chunks released. */
  function Run(build: Builder, elems: seq<Elem>): (r: (int, Window, Result<seq<Chunk>>))
    ensures |elems| == 0 ==> r == (0, Empty, Ok([]))
    ensures r.2.Ok? ==> |r.2.value| == (if |elems| == 0 then 0 else |elems| - 1)
    ensures r.2.Ok? && |elems| >= 1 ==> r.1.before.Some? && (r.1.current.Some? <==> |elems| >= 2)
    ensures r.2.Ok? && |elems| >= 2 ==> r.1.before == Some(r.2.value[|elems| - 2])
    decreases |elems|
  {
    if |elems| == 0 then (0, Empty, Ok([]))
    else
      var prev := Run(build, elems[..|elems| - 1]);
      RunStep(prev, build(prev.0, elems[|elems| - 1]))
  }

  function RunStep(prev: (int, Window, Result<seq<Chunk>>), built: (int, Result<Chunk>)): (int, Window, Result<seq<Chunk>>)
  {
    var (n, w, r) := prev;
    if r.Err? then (n, w, r)
    else
      match built.1
      case Err(e) => (built.0, w, Err(e))
      case Ok(c) =>
        var (w2, o) := Shift(w, c);
        match o
        case Err(e) => (built.0, w2, Err(e))
        case Ok(None) => (built.0, w2, r)
        case Ok(Some(x)) => (built.0, w2, Ok(r.value + [x]))
  }

  /** A whole session: push every element, then flush. */
  function Session(build: Builder, elems: seq<Elem>): Result<seq<Chunk>>
  {
    var (_, w, r) := Run(build, elems);
    if r.Err? then r
    else
      match Final(w).1
      case Err(e) => Err(e)
      case Ok(None) => r
      case Ok(Some(x)) => Ok(r.value + [x])
  }

  /** A builder that, on these elements, applies the id rule and otherwise
      always succeeds with `make(elem, id)`, a chunk with a dict context. */
  ghost predicate Regular(build: Builder, make: (Elem, Value) -> Chunk, elems: seq<Elem>)
  {
    forall n: int, k :: 0 <= k < |elems| ==>
      build(n, elems[k]) == (NextId(n, Get(elems[k], "id", Null)).0, Ok(make(elems[k], NextId(n, Get(elems[k], "id", Null)).1)))
      && make(elems[k], NextId(n, Get(elems[k], "id", Null)).1).context.Dict?
  }

  /** The chunks a regular builder makes, ids assigned by the counter. */
  function Made(make: (Elem, Value) -> Chunk, elems: seq<Elem>): (r: seq<Chunk>)
    ensures |r| == |elems|
    ensures forall k :: 0 <= k < |elems| ==> r[k] == make(elems[k], AssignIds(0, Ids(elems))[k])
    decreases |elems|
  {
    if |elems| == 0 then []
    else
      var t := elems[..|elems| - 1];
      assert Ids(t) == Ids(elems)[..|elems| - 1];
      Made(make, t) + [make(elems[|elems| - 1], AssignIds(0, Ids(elems))[|elems| - 1])]
  }

  lemma {:induction false} MadeAllDict(build: Builder, make: (Elem, Value) -> Chunk, elems: seq<Elem>)
    requires Regular(build, make, elems)
    ensures AllDict(Made(make, elems))
  {
    var ms := Made(make, elems);
    AssignIdsSpec(0, Ids(elems));
    forall k | 0 <= k < |ms| ensures ms[k].context.Dict? {
      var n := Missing(Ids(elems)[..k]);
      assert ms[k] == make(elems[k], NextId(n, Get(elems[k], "id", Null)).1);
    }
  }

  lemma RunStepShift(n: int, w: Window, r: Result<seq<Chunk>>, n2: int, c: Chunk)
    requires r.Ok?
    ensures RunStep((n, w, r), (n2, Ok(c))).0 == n2
    ensures (RunStep((n, w, r), (n2, Ok(c))).1, RunStep((n, w, r), (n2, Ok(c))).2) == DriveStep((w, r), c)
  {
  }

  lemma RegularPrefix(build: Builder, make: (Elem, Value) -> Chunk, elems: seq<Elem>)
    requires Regular(build, make, elems) && |elems| > 0
    ensures Regular(build, make, elems[..|elems| - 1])
  {
    var t := elems[..|elems| - 1];
    forall k | 0 <= k < |t| ensures t[k] == elems[k] { }
  }

  lemma RegularLast(build: Builder, make: (Elem, Value) -> Chunk, elems: seq<Elem>, n: int)
    requires Regular(build, make, elems) && |elems| > 0
    ensures var e := elems[|elems| - 1];
      build(n, e) == (NextId(n, Get(e, "id", Null)).0, Ok(make(e, NextId(n, Get(e, "id", Null)).1)))
  {
  }

  lemma {:induction false} RunIsDrive(build: Builder, make: (Elem, Value) -> Chunk, elems: seq<Elem>)
    requires Regular(build, make, elems)
    ensures Run(build, elems).0 == Missing(Ids(elems))
    ensures (Run(build, elems).1, Run(build, elems).2) == Drive(Empty, Made(make, elems))
  {
    if |elems| > 0 {
      var t := elems[..|elems| - 1];
      var e := elems[|elems| - 1];
      RegularPrefix(build, make, elems);
      RunIsDrive(build, make, t);
      var ids := Ids(elems);
      assert Ids(t) == ids[..|elems| - 1];
      var ms := Made(make, elems);
      assert ms[..|elems| - 1] == Made(make, t);
      var prev := Run(build, t);
      var n, w, r := prev.0, prev.1, prev.2;
      assert (w, r) == Drive(Empty, Made(make, t));
      var c := ms[|elems| - 1];
      var n2 := NextId(n, Get(e, "id", Null)).0;
      assert AssignIds(0, ids)[|elems| - 1] == NextId(n, Get(e, "id", Null)).1;
      RegularLast(build, make, elems, n);
      assert build(n, e) == (n2, Ok(c));
      MadeAllDict(build, make, t);
      DriveShape(Made(make, t));
      RunStepShift(n, w, r, n2, c);
      assert Run(build, elems) == RunStep((n, w, r), (n2, Ok(c)));
      assert Drive(Empty, ms) == DriveStep((w, r), c);
      assert n2 == Missing(ids);
    }
  }

  /** A session of a regular builder releases every element's chunk, in
      order, each with its neighbours' payloads. */
  lemma SessionIsWithNeighbours(build: Builder, make: (Elem, Value) -> Chunk, elems: seq<Elem>)
    requires Regular(build, make, elems)
    ensures Session(build, elems) == Ok(WithNeighbours(Made(make, elems)))
  {
    RunIsDrive(build, make, elems);
    MadeAllDict(build, make, elems);
    StreamIsWithNeighbours(Made(make, elems));
  }

  /** The slots and the released chunks after pushing all of `s`. */
  function Shape(s: seq<Chunk>): (Window, Result<seq<Chunk>>)
  {
    if |s| == 0 then (Empty, Ok([]))
    else if |s| == 1 then (Window(Some(s[0]), None), Ok([]))
    else (Window(Some(Neighboured(s, |s| - 2)), Some(s[|s| - 1])), Ok(WithNeighbours(s)[..|s| - 1]))
  }

  /** Dropping the last chunk changes no neighbour of the chunks that are
      not next to it. */
  lemma NeighbouredPrefix(s: seq<Chunk>, i: nat)
    requires |s| >= 1 && i + 1 < |s| - 1
    ensures Neighboured(s[..|s| - 1], i) == Neighboured(s, i)
  {
  }

  /** Extending the stream by one chunk releases one more chunk: the one
      that was held, now with its "after" neighbour. */
  lemma WithNeighboursSnoc(s: seq<Chunk>)
    requires |s| >= 2
    ensures WithNeighbours(s)[..|s| - 1] == WithNeighbours(s[..|s| - 1])[..|s| - 2] + [Neighboured(s, |s| - 2)]
  {
    var t := s[..|s| - 1];
    forall i | 0 <= i < |t| - 1 ensures WithNeighbours(t)[i] == WithNeighbours(s)[i] {
      NeighbouredPrefix(s, i);
    }
  }

  lemma {:induction false} DriveShape(s: seq<Chunk>)
    requires AllDict(s)
    ensures Drive(Empty, s) == Shape(s)
  {
    if |s| >= 2 {
      var t := s[..|s| - 1];
      assert AllDict(t);
      DriveShape(t);
      var last := s[|s| - 1];
      if |t| == 1 {
        assert Drive(Empty, t) == (Window(Some(s[0]), None), Ok([]));
        assert Shift(Window(Some(s[0]), None), last) == (Window(Some(Neighboured(s, 0)), Some(last)), Ok(Some(Neighboured(s, 0))));
        assert Drive(Empty, s) == (Window(Some(Neighboured(s, 0)), Some(last)), Ok([] + [Neighboured(s, 0)]));
        assert WithNeighbours(s)[..1] == [Neighboured(s, 0)];
        assert [] + [Neighboured(s, 0)] == [Neighboured(s, 0)];
        assert Shape(s) == (Window(Some(Neighboured(s, 0)), Some(last)), Ok(WithNeighbours(s)[..1]));
      } else {
        var ret := Neighboured(s, |s| - 2);
        assert Shift(Window(Some(Neighboured(t, |t| - 2)), Some(t[|t| - 1])), last).1 == Ok(Some(ret));
        WithNeighboursSnoc(s);
      }
    }
  }

  /** Pushing every chunk and then flushing releases exactly the chunks
      pushed, in order, each with the payloads of its neighbours. */
  lemma StreamIsWithNeighbours(cs: seq<Chunk>)
    requires AllDict(cs)
    ensures Stream(cs) == Ok(WithNeighbours(cs))
  {
    DriveShape(cs);
    if |cs| == 1 {
      assert Neighboured(cs, 0) == cs[0];
      assert WithNeighbours(cs) == [cs[0]];
      assert Final(Window(Some(cs[0]), None)).1 == Ok(Some(cs[0]));
      assert [] + [cs[0]] == [cs[0]];
    } else if |cs| >= 2 {
      assert WithNeighbours(cs)[..|cs| - 1] + [Neighboured(cs, |cs| - 1)] == WithNeighbours(cs);
    }
  }

  /** The first two elements: the first call releases nothing, the second
      releases chunk 1 with "after" set and no "before". */
  lemma FirstTwoCalls(a: Chunk, b: Chunk)
    requires a.context.Dict?
    ensures Shift(Empty, a) == (Window(Some(a), None), Ok(None))
    ensures Shift(Window(Some(a), None), b).1 == Ok(Some(Chunk(a.id, a.data, Dict(a.context.fields["after" := b.data]))))
  {
  }
}
