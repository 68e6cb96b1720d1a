// Local documents (types/doc/localdoc.py): the three document builders
// (sequence, tree, table) that documents are recreated with chunk by chunk,
// the choice of dump format, and the checks and type dispatch of loading a
// parsed document file.

module LocalDoc {
  import opened Values
  import opened Defs
  import opened Window
  import DocChunker
  import Document
  import Io

  type Meta = Document.Meta

  /** `set_chunks(chunks)`: no chunks, or an empty list, start an empty
      document. */
  function InitialChunks(chunks: Option<seq<Value>>): seq<Value>
  {
    if chunks.Some? && |chunks.value| > 0 then chunks.value else []
  }

  /** The metadata a new local document starts with: the given metadata,
      whose document section gets an id (its own, else the generated
      `freshId`) as `SrcDocument` gives it, and then the class's type tag
      written into that section. */
  function InitialMeta(metadata: Option<Meta>, t: DocType, freshId: string): (m: Meta)
    ensures META_DOC in m && "type" in m[META_DOC] && m[META_DOC]["type"] == Str(DocTypeTag(t))
    ensures "id" in m[META_DOC]
    ensures metadata.None? ==> m == map[META_DOC := map["id" := Str(freshId), "type" := Str(DocTypeTag(t))]]
    ensures metadata.Some? && (META_DOC !in metadata.value || "id" !in metadata.value[META_DOC]) ==>
      m[META_DOC]["id"] == Str(freshId)
    ensures metadata.Some? ==> m.Keys == metadata.value.Keys + {META_DOC}
    ensures metadata.Some? ==> forall k :: k in metadata.value && k != META_DOC ==> m[k] == metadata.value[k]
    ensures metadata.Some? && META_DOC in metadata.value ==>
      forall k :: k in metadata.value[META_DOC] && k != "type" ==> k in m[META_DOC] && m[META_DOC][k] == metadata.value[META_DOC][k]
  {
    var given := if metadata.Some? then metadata.value else map[];
    var doc := Document.HeaderDocument(if META_DOC in given then Some(given[META_DOC]) else None, freshId);
    FreshMeta(t, freshId);
    Document.MergeSections(given[META_DOC := doc], map[META_DOC := map["type" := Str(DocTypeTag(t))]])
  }

  /** Without metadata, a new document's header is just its id and type. */
  lemma FreshMeta(t: DocType, freshId: string)
    ensures Document.MergeSections(map[META_DOC := map["id" := Str(freshId)]], map[META_DOC := map["type" := Str(DocTypeTag(t))]])
      == map[META_DOC := map["id" := Str(freshId), "type" := Str(DocTypeTag(t))]]
  {
    var m := Document.MergeSections(map[META_DOC := map["id" := Str(freshId)]], map[META_DOC := map["type" := Str(DocTypeTag(t))]]);
    assert m[META_DOC] == map["id" := Str(freshId), "type" := Str(DocTypeTag(t))];
  }

  /** The stored form of an added chunk: its dict, with a non-empty context. */
  function Stored(c: Chunk): Value
  {
    Dict(DocChunker.AsDict(c, true))
  }

  // -------------------------------------------------------------------
  // Sequence documents

  class SequenceDoc {
    var chk: seq<Value>
    var meta: Meta

    constructor (chunks: Option<seq<Value>>, metadata: Option<Meta>, freshId: string)
      ensures chk == InitialChunks(chunks) && meta == InitialMeta(metadata, Sequence, freshId)
    {
      chk := InitialChunks(chunks);
      meta := InitialMeta(metadata, Sequence, freshId);
    }

    /** `add_chunk`: append the chunk's dict form. */
    method AddChunk(c: Chunk)
      modifies this
      ensures chk == old(chk) + [Stored(c)] && meta == old(meta)
    {
      chk := chk + [Stored(c)];
    }
  }

  /** Reading a stored sequence back through a chunk generator gives the
      added chunks again (ids are strings already, and an empty context
      reads back as None). */
  lemma SequenceRecreates(cs: seq<Chunk>, counter: int)
    requires forall k :: 0 <= k < |cs| ==> cs[k].id.Str? && (Truthy(cs[k].context) || cs[k].context == Null)
    ensures forall k :: 0 <= k < |cs| ==>
      DocChunker.Build(counter, Null, DocChunker.AsDict(cs[k], true), Null) == (counter, Ok(cs[k]))
  {
    forall k | 0 <= k < |cs|
      ensures DocChunker.Build(counter, Null, DocChunker.AsDict(cs[k], true), Null) == (counter, Ok(cs[k]))
    {
      DocChunker.RegenerateFromDict(cs[k], counter);
    }
  }

  // -------------------------------------------------------------------
  // Tree documents
  //
  // The source keeps `_stack`, the list of the nodes on the rightmost path
  // of the tree (aliases of dicts inside `_chk`), and appends a new node to
  // the "chunks" list of one of them. The model keeps the length of that
  // stack and performs the append on the tree value itself: the node at
  // stack position d is the rightmost node at depth d.

  /** A node that can take children: a dict whose "chunks" is absent or a
      list. */
  predicate Appendable(v: Value)
  {
    v.Dict? && ("chunks" in v.fields ==> v.fields["chunks"].List?)
  }

  function Kids(v: Value): seq<Value>
    requires Appendable(v)
  {
    if "chunks" in v.fields then v.fields["chunks"].items else []
  }

  /** Length of the path of appendable nodes that starts at `v` and follows
      the last child. */
  function NodeDepth(v: Value): nat
    decreases v, 1
  {
    if v.Dict? && "chunks" in v.fields then
      (if v.fields["chunks"].List? then 1 + RightDepth(v.fields["chunks"].items) else 0)
    else if v.Dict? then 1
    else 0
  }

  /** Length of the rightmost path of appendable nodes of a forest. */
  function RightDepth(f: seq<Value>): nat
    decreases f, 0
  {
    if |f| == 0 then 0 else NodeDepth(f[|f| - 1])
  }

  lemma NodeDepthKids(v: Value)
    requires NodeDepth(v) > 0
    ensures Appendable(v) && NodeDepth(v) == 1 + RightDepth(Kids(v))
  {
  }

  /** Append `n` to the forest at depth `k`: at the top when `k` is 0, else
      to the children of the rightmost node at depth `k - 1`. */
  function Place(f: seq<Value>, k: nat, n: Value): (r: seq<Value>)
    requires k <= RightDepth(f)
    ensures |r| == if k == 0 then |f| + 1 else |f|
    ensures k > 0 ==> r[..|f| - 1] == f[..|f| - 1]
    decreases k
  {
    if k == 0 then f + [n]
    else
      var last := f[|f| - 1];
      NodeDepthKids(last);
      f[..|f| - 1] + [Dict(last.fields["chunks" := List(Place(Kids(last), k - 1, n))])]
  }

  /** Pre-order listing of a forest, each node without its "chunks". */
  function FlatNode(v: Value): seq<Value>
    decreases v, 1
  {
    if v.Dict? && "chunks" in v.fields && v.fields["chunks"].List? then
      [Dict(v.fields - {"chunks"})] + FlatAll(v.fields["chunks"].items)
    else if v.Dict? then [Dict(v.fields - {"chunks"})]
    else [v]
  }

  function FlatAll(f: seq<Value>): seq<Value>
    decreases f, 0
  {
    if |f| == 0 then [] else FlatAll(f[..|f| - 1]) + FlatNode(f[|f| - 1])
  }

  /** A leaf: a dict without children. */
  predicate Leaf(n: Value)
  {
    n.Dict? && "chunks" !in n.fields
  }

  lemma {:induction false} PlaceDepth(f: seq<Value>, k: nat, n: Value)
    requires k <= RightDepth(f) && Leaf(n)
    ensures RightDepth(Place(f, k, n)) == k + 1
    decreases k
  {
    if k == 0 {
      assert (f + [n])[|f|] == n;
    } else {
      var last := f[|f| - 1];
      var r := Place(f, k, n);
      PlaceDepth(Kids(last), k - 1, n);
      assert r[|r| - 1] == Dict(last.fields["chunks" := List(Place(Kids(last), k - 1, n))]);
    }
  }

  lemma FlatAllSnoc(p: seq<Value>, x: Value)
    ensures FlatAll(p + [x]) == FlatAll(p) + FlatNode(x)
  {
    assert (p + [x])[..|p|] == p;
  }

  /** Replacing the children of an appendable node by children that list one
      more node lists that node after the node's own listing. */
  lemma FlatNodeGrown(last: Value, placed: seq<Value>, n: Value)
    requires Appendable(last) && FlatAll(placed) == FlatAll(Kids(last)) + [n]
    ensures FlatNode(Dict(last.fields["chunks" := List(placed)])) == FlatNode(last) + [n]
  {
    var node := Dict(last.fields["chunks" := List(placed)]);
    assert node.fields - {"chunks"} == last.fields - {"chunks"};
  }

  /** One level of `PlaceFlat`: growing the children of the last node by
      one listed node grows the listing of the forest by that node. */
  lemma PlaceFlatBelow(pre: seq<Value>, last: Value, placed: seq<Value>, n: Value)
    requires Appendable(last) && FlatAll(placed) == FlatAll(Kids(last)) + [n]
    ensures FlatAll(pre + [Dict(last.fields["chunks" := List(placed)])]) == FlatAll(pre + [last]) + [n]
  {
    var node := Dict(last.fields["chunks" := List(placed)]);
    FlatNodeGrown(last, placed, n);
    FlatAllSnoc(pre, node);
    FlatAllSnoc(pre, last);
  }

  /** Placing a leaf anywhere on the rightmost path lists it last. */
  lemma {:induction false} PlaceFlat(f: seq<Value>, k: nat, n: Value)
    requires k <= RightDepth(f) && Leaf(n)
    ensures FlatAll(Place(f, k, n)) == FlatAll(f) + [n]
    decreases k
  {
    if k == 0 {
      FlatAllSnoc(f, n);
      LeafFlat(n);
    } else {
      var pre, last := f[..|f| - 1], f[|f| - 1];
      PlaceUnfold(f, k, n);
      var placed := Place(Kids(last), k - 1, n);
      PlaceFlat(Kids(last), k - 1, n);
      PlaceFlatBelow(pre, last, placed, n);
    }
  }

  lemma LeafFlat(n: Value)
    requires Leaf(n)
    ensures FlatNode(n) == [n]
  {
    assert n.fields - {"chunks"} == n.fields;
  }

  /** One level of `Place` below the top. */
  lemma PlaceUnfold(f: seq<Value>, k: nat, n: Value)
    requires 0 < k <= RightDepth(f)
    ensures Appendable(f[|f| - 1]) && k - 1 <= RightDepth(Kids(f[|f| - 1]))
    ensures Place(f, k, n) == f[..|f| - 1] + [Dict(f[|f| - 1].fields["chunks" := List(Place(Kids(f[|f| - 1]), k - 1, n))])]
    ensures f == f[..|f| - 1] + [f[|f| - 1]]
  {
    NodeDepthKids(f[|f| - 1]);
  }

  /** The builder state: the stored forest, the stack length (`None` before
      the first top-level chunk creates `_stack`) and `_cur_lev`. */
  datatype TreeState = TreeState(chk: seq<Value>, stack: Option<nat>, curLev: int)

  /** The stack mirrors the rightmost path of the forest. */
  predicate TreeValid(s: TreeState)
  {
    s.stack.Some? ==> s.stack.value >= 1 && RightDepth(s.chk) == s.stack.value
  }

  /** The level of a chunk: its context's "level" (0 when absent), or 0 for
      an empty context; a non-dict context has no `get`. */
  function ChunkLevel(c: Chunk): (r: Result<Value>)
    ensures !Truthy(c.context) ==> r == Ok(Int(0))
    ensures Truthy(c.context) ==> r == GetAttr(c.context, "level", Int(0))
  {
    if Truthy(c.context) then GetAttr(c.context, "level", Int(0)) else Ok(Int(0))
  }

  /** The level as a number: Python compares bools as 0 and 1; comparing any
      other non-int with an int raises TypeError. */
  function LevelNumber(v: Value): (r: Result<int>)
    ensures r.Ok? <==> v.Int? || v.Bool?
    ensures v.Int? ==> r == Ok(v.i)
  {
    match v
    case Int(i) => Ok(i)
    case Bool(b) => Ok(if b then 1 else 0)
    case _ => Err(PyError(TypeError))
  }

  /** The level of a chunk as a number. */
  function LevelOf(c: Chunk): (r: Result<int>)
    ensures !Truthy(c.context) ==> r == Ok(0)
    ensures ChunkLevel(c).Err? ==> r == Err(ChunkLevel(c).error)
    ensures r.Ok? <==> ChunkLevel(c).Ok? && (ChunkLevel(c).value.Int? || ChunkLevel(c).value.Bool?)
    ensures ChunkLevel(c).Ok? && ChunkLevel(c).value.Int? ==> r == Ok(ChunkLevel(c).value.i)
  {
    var lv :- ChunkLevel(c);
    LevelNumber(lv)
  }

  /** `add_chunk` of a tree document once the chunk's level `k` is known.
      `updateAtZero` selects whether a top-level chunk also resets
      `_cur_lev` (the source does not). A negative level indexes the stack
      from its end, as Python does. */
  function TreeStepAt(s: TreeState, c: Chunk, k: int, updateAtZero: bool): (r: Result<TreeState>)
    requires TreeValid(s)
    ensures r.Ok? ==> TreeValid(r.value) && r.value.stack.Some?
    ensures r.Ok? ==> FlatAll(r.value.chk) == FlatAll(s.chk) + [Stored(c)]
    ensures k > s.curLev + 1 ==> r == Err(InvArg)
    ensures k == 0 && 0 <= s.curLev + 1 ==>
      r == Ok(TreeState(s.chk + [Stored(c)], Some(1), if updateAtZero then 0 else s.curLev))
    ensures k != 0 && k <= s.curLev + 1 ==>
      r == (if s.stack.None? then Err(PyError(AttributeError))
            else
              var d := if k < 0 then s.stack.value + k else k;
              if d < 1 || d > s.stack.value then Err(PyError(IndexError))
              else Ok(TreeState(Place(s.chk, d, Stored(c)), Some(d + 1), k)))
  {
    var node := Stored(c);
    if k > s.curLev + 1 then Err(InvArg)
    else if k == 0 then
      assert (s.chk + [node])[|s.chk|] == node;
      assert RightDepth(s.chk + [node]) == 1;
      PlaceFlat(s.chk, 0, node);
      Ok(TreeState(s.chk + [node], Some(1), if updateAtZero then 0 else s.curLev))
    else if s.stack.None? then Err(PyError(AttributeError))
    else
      var d := if k < 0 then s.stack.value + k else k;
      if d < 1 || d > s.stack.value then Err(PyError(IndexError))
      else
        PlaceDepth(s.chk, d, node);
        PlaceFlat(s.chk, d, node);
        Ok(TreeState(Place(s.chk, d, node), Some(d + 1), k))
  }

  /** A step below the top level places the node at the depth the level
      names. */
  lemma TreeStepPlaced(s: TreeState, c: Chunk, k: int, updateAtZero: bool, d: int)
    requires TreeValid(s) && s.stack.Some? && k != 0 && k <= s.curLev + 1
    requires d == (if k < 0 then s.stack.value + k else k) && 1 <= d <= s.stack.value
    ensures TreeStepAt(s, c, k, updateAtZero) == Ok(TreeState(Place(s.chk, d, Stored(c)), Some(d + 1), k))
  {
  }

  /** `add_chunk` of a tree document: the chunk's level, then the step. */
  function TreeStepWith(s: TreeState, c: Chunk, updateAtZero: bool): (r: Result<TreeState>)
    requires TreeValid(s)
    ensures r.Ok? ==> TreeValid(r.value) && r.value.stack.Some?
    ensures r.Ok? ==> FlatAll(r.value.chk) == FlatAll(s.chk) + [Stored(c)]
    ensures LevelOf(c).Err? ==> r == Err(LevelOf(c).error)
    ensures LevelOf(c).Ok? ==> r == TreeStepAt(s, c, LevelOf(c).value, updateAtZero)
  {
    var k :- LevelOf(c);
    TreeStepAt(s, c, k, updateAtZero)
  }

  /** The state of a tree document before any chunk is added. */
  const TreeStart := TreeState([], None, 0)

  /** Adding chunks one after another; the first error stops the run. */
  function TreeRun(s: TreeState, cs: seq<Chunk>, updateAtZero: bool): (r: Result<TreeState>)
    requires TreeValid(s)
    ensures r.Ok? ==> TreeValid(r.value)
    decreases |cs|
  {
    if |cs| == 0 then Ok(s)
    else
      var t :- TreeRun(s, cs[..|cs| - 1], updateAtZero);
      TreeStepWith(t, cs[|cs| - 1], updateAtZero)
  }

  function StoredAll(cs: seq<Chunk>): (r: seq<Value>)
    ensures |r| == |cs| && forall k :: 0 <= k < |cs| ==> r[k] == Stored(cs[k])
  {
    seq(|cs|, k requires 0 <= k < |cs| => Stored(cs[k]))
  }

  lemma StoredAllSnoc(cs: seq<Chunk>)
    requires |cs| > 0
    ensures StoredAll(cs) == StoredAll(cs[..|cs| - 1]) + [Stored(cs[|cs| - 1])]
  {
  }

  lemma ConcatSnoc(a: seq<Value>, b: seq<Value>, x: Value)
    ensures a + b + [x] == a + (b + [x])
  {
  }

  /** A tree built without error lists, in pre-order, exactly the chunks
      added after the existing ones, in the order they were added: dumping
      or iterating the tree gives the chunks back in document order. */
  lemma {:induction false} TreeRunFlat(s: TreeState, cs: seq<Chunk>, updateAtZero: bool)
    requires TreeValid(s) && TreeRun(s, cs, updateAtZero).Ok?
    ensures FlatAll(TreeRun(s, cs, updateAtZero).value.chk) == FlatAll(s.chk) + StoredAll(cs)
    decreases |cs|
  {
    if |cs| == 0 {
      assert StoredAll(cs) == [];
    } else {
      var pre, last := cs[..|cs| - 1], cs[|cs| - 1];
      var t := TreeRun(s, pre, updateAtZero).value;
      assert TreeRun(s, cs, updateAtZero) == TreeStepWith(t, last, updateAtZero);
      TreeRunFlat(s, pre, updateAtZero);
      StoredAllSnoc(cs);
      ConcatSnoc(FlatAll(s.chk), StoredAll(pre), Stored(last));
    }
  }

  /** With the corrected step, the stack is always one longer than the
      current level. */
  predicate TreeTidy(s: TreeState)
  {
    TreeValid(s) && (if s.stack.Some? then s.curLev + 1 == s.stack.value else s.curLev == 0)
  }

  /** The corrected step keeps the stack and the current level in step, and
      then the gap check rules out every out-of-range stack index: a
      non-negative level never raises IndexError. */
  lemma TreeStepTidy(s: TreeState, c: Chunk)
    requires TreeTidy(s) && (LevelOf(c).Ok? ==> LevelOf(c).value >= 0)
    ensures TreeStepWith(s, c, true) != Err(PyError(IndexError))
    ensures TreeStepWith(s, c, true).Ok? ==> TreeTidy(TreeStepWith(s, c, true).value)
  {
  }

  // Levels 0, 1, 0, 2: the second top-level chunk leaves `_cur_lev` at 1,
  // so level 2 passes the gap check and then indexes past the stack.

  function LevelChunk(level: int): Chunk
  {
    Chunk(Str("c"), Str("text"), Dict(map["level" := Int(level)]))
  }

  const GapLevels: seq<Chunk> := [LevelChunk(0), LevelChunk(1), LevelChunk(0), LevelChunk(2)]

  lemma LevelOfChunk(level: int)
    ensures LevelOf(LevelChunk(level)) == Ok(level)
  {
    assert Truthy(LevelChunk(level).context);
  }

  /** One more chunk extends a successful run by one step. */
  lemma TreeRunSnoc(s: TreeState, cs: seq<Chunk>, u: bool, t: TreeState)
    requires TreeValid(s) && |cs| > 0 && TreeRun(s, cs[..|cs| - 1], u) == Ok(t)
    ensures TreeValid(t) && TreeRun(s, cs, u) == TreeStepWith(t, cs[|cs| - 1], u)
  {
  }

  lemma GapPrefixes()
    ensures GapLevels[..1][..0] == [] && GapLevels[..1][0] == LevelChunk(0)
    ensures GapLevels[..2][..1] == GapLevels[..1] && GapLevels[..2][1] == LevelChunk(1)
    ensures GapLevels[..3][..2] == GapLevels[..2] && GapLevels[..3][2] == LevelChunk(0)
    ensures GapLevels[..3] == GapLevels[..|GapLevels| - 1] && GapLevels[3] == LevelChunk(2)
  {
  }

  lemma GapFirst(u: bool)
    ensures TreeRun(TreeStart, GapLevels[..1], u).Ok?
    ensures TreeRun(TreeStart, GapLevels[..1], u).value.stack == Some(1)
    ensures TreeRun(TreeStart, GapLevels[..1], u).value.curLev == 0
  {
    GapPrefixes();
    LevelOfChunk(0);
    TreeRunSnoc(TreeStart, GapLevels[..1], u, TreeStart);
  }

  lemma GapSecond(u: bool)
    ensures TreeRun(TreeStart, GapLevels[..2], u).Ok?
    ensures TreeRun(TreeStart, GapLevels[..2], u).value.stack == Some(2)
    ensures TreeRun(TreeStart, GapLevels[..2], u).value.curLev == 1
  {
    GapPrefixes();
    GapFirst(u);
    LevelOfChunk(1);
    TreeRunSnoc(TreeStart, GapLevels[..2], u, TreeRun(TreeStart, GapLevels[..1], u).value);
  }

  /** The first three chunks leave a one-entry stack, with `_cur_lev` still
      1 as written and 0 once corrected. */
  lemma TreeGapPrefix(updateAtZero: bool)
    ensures TreeRun(TreeStart, GapLevels[..3], updateAtZero).Ok?
    ensures TreeRun(TreeStart, GapLevels[..3], updateAtZero).value.stack == Some(1)
    ensures TreeRun(TreeStart, GapLevels[..3], updateAtZero).value.curLev == if updateAtZero then 0 else 1
  {
    GapPrefixes();
    GapSecond(updateAtZero);
    LevelOfChunk(0);
    TreeRunSnoc(TreeStart, GapLevels[..3], updateAtZero, TreeRun(TreeStart, GapLevels[..2], updateAtZero).value);
  }

  /** As written, levels 0, 1, 0, 2 end in IndexError. */
  lemma TreeGapAsWritten()
    ensures TreeRun(TreeStart, GapLevels, false) == Err(PyError(IndexError))
  {
    GapPrefixes();
    TreeGapPrefix(false);
    LevelOfChunk(2);
    TreeRunSnoc(TreeStart, GapLevels, false, TreeRun(TreeStart, GapLevels[..3], false).value);
  }

  /** Corrected, the same levels are reported as a level gap. */
  lemma TreeGapCorrected()
    ensures TreeRun(TreeStart, GapLevels, true) == Err(InvArg)
  {
    GapPrefixes();
    TreeGapPrefix(true);
    LevelOfChunk(2);
    TreeRunSnoc(TreeStart, GapLevels, true, TreeRun(TreeStart, GapLevels[..3], true).value);
  }

  class TreeDoc {
    var chk: seq<Value>
    var stack: Option<nat>
    var curLev: int
    var meta: Meta

    function State(): TreeState
      reads this
    {
      TreeState(chk, stack, curLev)
    }

    ghost predicate Valid()
      reads this
    {
      TreeValid(State())
    }

    constructor (chunks: Option<seq<Value>>, metadata: Option<Meta>, freshId: string)
      ensures Valid()
      ensures State() == TreeState(InitialChunks(chunks), None, 0) && meta == InitialMeta(metadata, Tree, freshId)
    {
      chk := InitialChunks(chunks);
      stack := None;
      curLev := 0;
      meta := InitialMeta(metadata, Tree, freshId);
    }

    /** `add_chunk` of a tree document, with `_cur_lev` also reset by a
        top-level chunk. On an error nothing changes. */
    method AddChunk(c: Chunk) returns (r: Result<()>)
      requires Valid()
      modifies this
      ensures Valid() && meta == old(meta)
      ensures TreeStepWith(old(State()), c, true).Ok? ==>
        r == Ok(()) && State() == TreeStepWith(old(State()), c, true).value
      ensures TreeStepWith(old(State()), c, true).Err? ==>
        r == Err(TreeStepWith(old(State()), c, true).error) && State() == old(State())
    {
      ghost var s0 := State();
      var level := LevelOf(c);
      if level.Err? {
        return Err(level.error);
      }
      var newLev := level.value;
      ghost var want := TreeStepAt(s0, c, newLev, true);
      assert TreeStepWith(s0, c, true) == want;
      if newLev > curLev + 1 {
        return Err(InvArg);
      }
      var node := Stored(c);
      if newLev == 0 {
        assert want == Ok(TreeState(chk + [node], Some(1), 0));
        chk, stack, curLev := chk + [node], Some(1), 0;
        return Ok(());
      }
      if stack.None? {
        return Err(PyError(AttributeError));
      }
      var d := if newLev < 0 then stack.value + newLev else newLev;
      if d < 1 || d > stack.value {
        return Err(PyError(IndexError));
      }
      TreeStepPlaced(s0, c, newLev, true, d);
      chk, stack, curLev := Place(chk, d, node), Some(d + 1), newLev;
      r := Ok(());
    }
  }

  // -------------------------------------------------------------------
  // Table documents: consecutive chunks with the same context "row" are
  // stored as one row whose "data" lists their payloads.

  /** The row of a chunk (`chunk.context.get("row")`). */
  function RowOf(c: Chunk): Value
  {
    if c.context.Dict? then Get(c.context.fields, "row", Null) else Null
  }

  /** A new stored row holding one payload. */
  function NewRow(row: Value, x: Value): Value
  {
    Dict(map["id" := row, "data" := List([x])])
  }

  /** `row_chunk["data"].append(x)` on a stored row. */
  function AppendData(row: Value, x: Value): (r: Result<Value>)
    ensures r.Ok? <==> row.Dict? && "data" in row.fields && row.fields["data"].List?
    ensures r.Ok? ==> r.value == Dict(row.fields["data" := List(row.fields["data"].items + [x])])
    ensures !row.Dict? ==> r == Err(PyError(TypeError))
    ensures row.Dict? && "data" !in row.fields ==> r == Err(PyError(KeyError))
  {
    match row
    case Dict(m) =>
      if "data" !in m then Err(PyError(KeyError))
      else if m["data"].List? then Ok(Dict(m["data" := List(m["data"].items + [x])]))
      else Err(PyError(AttributeError))
    case _ => Err(PyError(TypeError))
  }

  datatype TableState = TableState(chk: seq<Value>, curRow: Value)

  const TableStart := TableState([], Null)

  /** `add_chunk` of a table document. A chunk whose row equals the current
      one extends the last stored row; any other row starts a new one. */
  function TableStep(s: TableState, c: Chunk): (r: Result<TableState>)
    ensures !c.context.Dict? ==> r == Err(PyError(AttributeError))
    ensures c.context.Dict? && RowOf(c) == s.curRow && |s.chk| == 0 ==> r == Err(PyError(IndexError))
    ensures r.Ok? ==> r.value.curRow == RowOf(c)
    ensures r.Ok? && RowOf(c) != s.curRow ==> r.value.chk == s.chk + [NewRow(RowOf(c), c.data)]
  {
    var newRow :- GetAttr(c.context, "row", Null);
    if newRow == s.curRow then
      if |s.chk| == 0 then Err(PyError(IndexError))
      else
        var row :- AppendData(s.chk[|s.chk| - 1], c.data);
        Ok(TableState(s.chk[..|s.chk| - 1] + [row], newRow))
    else Ok(TableState(s.chk + [NewRow(newRow, c.data)], newRow))
  }

  /** `add_chunk` over a run of chunks: at most one stored row per chunk,
      and the current row is that of the last chunk. */
  function TableRun(s: TableState, cs: seq<Chunk>): (r: Result<TableState>)
    ensures |cs| == 0 ==> r == Ok(s)
    ensures r.Ok? ==> |s.chk| <= |r.value.chk| <= |s.chk| + |cs|
    ensures r.Ok? && |cs| > 0 ==> r.value.curRow == RowOf(cs[|cs| - 1])
    decreases |cs|
  {
    if |cs| == 0 then Ok(s)
    else
      var t :- TableRun(s, cs[..|cs| - 1]);
      TableStep(t, cs[|cs| - 1])
  }

  function RowId(v: Value): Value
  {
    if v.Dict? then Get(v.fields, "id", Null) else Null
  }

  function RowItems(v: Value): seq<Value>
  {
    if v.Dict? && "data" in v.fields && v.fields["data"].List? then v.fields["data"].items else []
  }

  /** Every stored row is a dict with an id and a non-empty data list; the
      current row is the id of the last stored row (None before the first). */
  predicate TableInv(t: TableState)
  {
    (forall k :: 0 <= k < |t.chk| ==>
       t.chk[k].Dict? && "id" in t.chk[k].fields && "data" in t.chk[k].fields &&
       t.chk[k].fields["data"].List? && |t.chk[k].fields["data"].items| > 0) &&
    t.curRow == (if |t.chk| == 0 then Null else RowId(t.chk[|t.chk| - 1]))
  }

  function RowIds(rows: seq<Value>): (r: seq<Value>)
    ensures |r| == |rows| && forall k :: 0 <= k < |rows| ==> r[k] == RowId(rows[k])
  {
    seq(|rows|, k requires 0 <= k < |rows| => RowId(rows[k]))
  }

  /** The payloads of all stored rows, row after row. */
  function AllData(rows: seq<Value>): seq<Value>
  {
    if |rows| == 0 then [] else AllData(rows[..|rows| - 1]) + RowItems(rows[|rows| - 1])
  }

  function RowsOf(cs: seq<Chunk>): (r: seq<Value>)
    ensures |r| == |cs| && forall k :: 0 <= k < |cs| ==> r[k] == RowOf(cs[k])
  {
    seq(|cs|, k requires 0 <= k < |cs| => RowOf(cs[k]))
  }

  function Payloads(cs: seq<Chunk>): (r: seq<Value>)
    ensures |r| == |cs| && forall k :: 0 <= k < |cs| ==> r[k] == cs[k].data
  {
    seq(|cs|, k requires 0 <= k < |cs| => cs[k].data)
  }

  /** A sequence with each run of equal neighbours collapsed to one. */
  function Dedup(xs: seq<Value>): (r: seq<Value>)
    ensures |xs| > 0 ==> |r| > 0 && r[|r| - 1] == xs[|xs| - 1]
    ensures forall k :: 0 <= k < |r| - 1 ==> r[k] != r[k + 1]
  {
    if |xs| == 0 then []
    else
      var pre := xs[..|xs| - 1];
      if |pre| > 0 && pre[|pre| - 1] == xs[|xs| - 1] then Dedup(pre) else Dedup(pre) + [xs[|xs| - 1]]
  }

  /** The inputs a table builds from: every context is a dict, and the first
      chunk has a row (a first chunk without one would extend a row that
      does not exist). */
  predicate RowsOK(cs: seq<Chunk>)
  {
    (forall k :: 0 <= k < |cs| ==> cs[k].context.Dict?) && (|cs| > 0 ==> RowOf(cs[0]) != Null)
  }

  lemma AllDataSnoc(rows: seq<Value>, row: Value)
    ensures AllData(rows + [row]) == AllData(rows) + RowItems(row)
  {
    assert (rows + [row])[..|rows|] == rows;
  }

  /** A chunk on the current row extends the last stored row. */
  lemma TableStepSameRow(t: TableState, c: Chunk)
    requires TableInv(t) && c.context.Dict? && |t.chk| > 0 && RowOf(c) == t.curRow
    ensures TableStep(t, c).Ok?
    ensures TableInv(TableStep(t, c).value)
    ensures AllData(TableStep(t, c).value.chk) == AllData(t.chk) + [c.data]
    ensures RowIds(TableStep(t, c).value.chk) == RowIds(t.chk)
  {
    var n := |t.chk|;
    var pre, last := t.chk[..n - 1], t.chk[n - 1];
    var row := Dict(last.fields["data" := List(last.fields["data"].items + [c.data])]);
    assert TableStep(t, c) == Ok(TableState(pre + [row], RowOf(c)));
    assert t.chk == pre + [last];
    AllDataSnoc(pre, row);
    AllDataSnoc(pre, last);
    assert RowItems(row) == RowItems(last) + [c.data];
  }

  /** A chunk on another row starts a new stored row. */
  lemma TableStepNewRow(t: TableState, c: Chunk)
    requires TableInv(t) && c.context.Dict? && RowOf(c) != t.curRow
    ensures TableStep(t, c).Ok?
    ensures TableInv(TableStep(t, c).value)
    ensures AllData(TableStep(t, c).value.chk) == AllData(t.chk) + [c.data]
    ensures RowIds(TableStep(t, c).value.chk) == RowIds(t.chk) + [RowOf(c)]
  {
    var row := NewRow(RowOf(c), c.data);
    assert TableStep(t, c) == Ok(TableState(t.chk + [row], RowOf(c)));
    AllDataSnoc(t.chk, row);
    assert RowItems(row) == [c.data];
  }

  lemma DedupSnoc(xs: seq<Value>, x: Value)
    ensures Dedup(xs + [x]) == if |xs| > 0 && xs[|xs| - 1] == x then Dedup(xs) else Dedup(xs) + [x]
  {
    assert (xs + [x])[..|xs|] == xs;
  }

  lemma RowsOfSnoc(cs: seq<Chunk>)
    requires |cs| > 0
    ensures RowsOf(cs) == RowsOf(cs[..|cs| - 1]) + [RowOf(cs[|cs| - 1])]
    ensures Payloads(cs) == Payloads(cs[..|cs| - 1]) + [cs[|cs| - 1].data]
  {
  }

  /** On well-formed input the table builds, with the rows and data the
      specification functions give. */
  lemma {:induction false} TableRunGood(cs: seq<Chunk>)
    requires RowsOK(cs)
    ensures TableRun(TableStart, cs).Ok?
    ensures var t := TableRun(TableStart, cs).value;
      TableInv(t) && RowIds(t.chk) == Dedup(RowsOf(cs)) && AllData(t.chk) == Payloads(cs)
    decreases |cs|
  {
    if |cs| == 0 {
      assert RowIds([]) == [];
    } else {
      var pre, c := cs[..|cs| - 1], cs[|cs| - 1];
      RowsOKPrefix(cs);
      TableRunGood(pre);
      var t := TableRun(TableStart, pre).value;
      TableRunSnoc(cs, t);
      TableGoodStep(pre, c, t);
      ChunksSnoc(cs);
    }
  }

  lemma RowsOKPrefix(cs: seq<Chunk>)
    requires RowsOK(cs) && |cs| > 0
    ensures RowsOK(cs[..|cs| - 1]) && cs[|cs| - 1].context.Dict?
    ensures |cs| == 1 ==> RowOf(cs[0]) != Null
  {
    var pre := cs[..|cs| - 1];
    assert |pre| > 0 ==> pre[0] == cs[0];
  }

  lemma TableRunSnoc(cs: seq<Chunk>, t: TableState)
    requires |cs| > 0 && TableRun(TableStart, cs[..|cs| - 1]) == Ok(t)
    ensures TableRun(TableStart, cs) == TableStep(t, cs[|cs| - 1])
  {
  }

  lemma ChunksSnoc(cs: seq<Chunk>)
    requires |cs| > 0
    ensures cs[..|cs| - 1] + [cs[|cs| - 1]] == cs
  {
  }

  /** One more chunk keeps the table's rows and data those of its input. */
  lemma TableGoodStep(pre: seq<Chunk>, c: Chunk, t: TableState)
    requires TableInv(t) && RowIds(t.chk) == Dedup(RowsOf(pre)) && AllData(t.chk) == Payloads(pre)
    requires c.context.Dict? && (|pre| == 0 ==> RowOf(c) != Null)
    ensures TableStep(t, c).Ok?
    ensures var t2 := TableStep(t, c).value;
      TableInv(t2) && RowIds(t2.chk) == Dedup(RowsOf(pre + [c])) && AllData(t2.chk) == Payloads(pre + [c])
  {
    RowsOfAppend(pre, c);
    DedupSnoc(RowsOf(pre), RowOf(c));
    CurrentRow(pre, t);
    if RowOf(c) == t.curRow {
      TableStepSameRow(t, c);
    } else {
      TableStepNewRow(t, c);
    }
  }

  lemma RowsOfAppend(pre: seq<Chunk>, c: Chunk)
    ensures RowsOf(pre + [c]) == RowsOf(pre) + [RowOf(c)]
    ensures Payloads(pre + [c]) == Payloads(pre) + [c.data]
  {
  }

  /** The current row is the row of the last chunk, or None before any. */
  lemma CurrentRow(pre: seq<Chunk>, t: TableState)
    requires TableInv(t) && RowIds(t.chk) == Dedup(RowsOf(pre))
    ensures |pre| > 0 ==> |t.chk| > 0 && t.curRow == RowsOf(pre)[|pre| - 1]
    ensures |pre| == 0 ==> |t.chk| == 0 && t.curRow == Null
  {
    if |pre| > 0 {
      assert RowIds(t.chk)[|t.chk| - 1] == t.curRow;
    }
  }


  /** On any other input it fails. */
  lemma {:induction false} TableRunBad(cs: seq<Chunk>)
    requires !RowsOK(cs)
    ensures TableRun(TableStart, cs).Err?
    decreases |cs|
  {
    var pre, c := cs[..|cs| - 1], cs[|cs| - 1];
    if !RowsOK(pre) {
      TableRunBad(pre);
    } else if !c.context.Dict? {
      if |pre| > 0 {
        TableRunGood(pre);
      }
      var t := TableRun(TableStart, pre).value;
      assert TableRun(TableStart, cs) == TableStep(t, c);
    } else {
      assert |pre| == 0 && RowOf(c) == Null;
      assert TableRun(TableStart, pre) == Ok(TableStart);
      assert TableRun(TableStart, cs) == TableStep(TableStart, c);
    }
  }

  /** A table built from chunks succeeds exactly on well-formed input; its
      rows are then the runs of equal row values in order, and their data
      lists hold all the payloads in order. */
  lemma TableRunSpec(cs: seq<Chunk>)
    ensures TableRun(TableStart, cs).Ok? <==> RowsOK(cs)
    ensures RowsOK(cs) ==>
      var t := TableRun(TableStart, cs).value;
      TableInv(t) && RowIds(t.chk) == Dedup(RowsOf(cs)) && AllData(t.chk) == Payloads(cs)
  {
    if RowsOK(cs) {
      TableRunGood(cs);
    } else {
      TableRunBad(cs);
    }
  }

  class TableDoc {
    var chk: seq<Value>
    var curRow: Value
    var meta: Meta

    function State(): TableState
      reads this
    {
      TableState(chk, curRow)
    }

    constructor (chunks: Option<seq<Value>>, metadata: Option<Meta>, freshId: string)
      ensures State() == TableState(InitialChunks(chunks), Null) && meta == InitialMeta(metadata, Table, freshId)
    {
      chk := InitialChunks(chunks);
      curRow := Null;
      meta := InitialMeta(metadata, Table, freshId);
    }

    /** `add_chunk` of a table document. On an error nothing changes. */
    method AddChunk(c: Chunk) returns (r: Result<()>)
      modifies this
      ensures meta == old(meta)
      ensures TableStep(old(State()), c).Ok? ==> r == Ok(()) && State() == TableStep(old(State()), c).value
      ensures TableStep(old(State()), c).Err? ==>
        r == Err(TableStep(old(State()), c).error) && State() == old(State())
    {
      if !c.context.Dict? {
        return Err(PyError(AttributeError));
      }
      var newRow := Get(c.context.fields, "row", Null);
      if newRow == curRow {
        if |chk| == 0 {
          return Err(PyError(IndexError));
        }
        var row := AppendData(chk[|chk| - 1], c.data);
        if row.Err? {
          return Err(row.error);
        }
        chk := chk[..|chk| - 1] + [row.value];
      } else {
        chk := chk + [NewRow(newRow, c.data)];
      }
      curRow := newRow;
      r := Ok(());
    }
  }

  // -------------------------------------------------------------------
  // Choosing the document class by type tag

  /** `LocalSrcDocument(document_type)` as written: an unknown type builds an
      exception object without raising it, so the call returns None. */
  function NewDocAsWritten(documentType: string): (r: Option<DocType>)
    ensures r.Some? <==> documentType in {"sequence", "tree", "table"}
    ensures r.Some? ==> DocTypeTag(r.value) == documentType
  {
    DocTypeOfTag(documentType)
  }

  /** The dispatcher with the exception raised. */
  function NewDoc(documentType: string): (r: Result<DocType>)
    ensures r.Ok? ==> DocTypeTag(r.value) == documentType
    ensures r.Err? ==> r.error == InvArg && documentType !in {"sequence", "tree", "table"}
  {
    match DocTypeOfTag(documentType)
    case Some(t) => Ok(t)
    case None => Err(InvArg)
  }

  lemma NewDocRoundTrip(t: DocType)
    ensures NewDoc(DocTypeTag(t)) == Ok(t)
  {
    DocTypeTagRoundTrip(t);
  }

  /** An unknown type: no document and no error as written, an error once
      the exception is raised. */
  lemma NewDocUnknown(documentType: string)
    requires documentType !in {"sequence", "tree", "table"}
    ensures NewDocAsWritten(documentType) == None
    ensures NewDoc(documentType) == Err(InvArg)
  {
  }

  // -------------------------------------------------------------------
  // dump_file: choosing the output format

  datatype DumpKind = DumpYaml | DumpJson | DumpText

  /** The writer for a format name. */
  function FormatKind(format: string): (r: Result<DumpKind>)
    ensures r == Ok(DumpYaml) <==> format in {"yaml", "yml"}
    ensures r == Ok(DumpJson) <==> format == "json"
    ensures r == Ok(DumpText) <==> format in {"txt", "text"}
    ensures r.Err? ==> r.error == InvArg
  {
    if format in {"yaml", "yml"} then Ok(DumpYaml)
    else if format == "json" then Ok(DumpJson)
    else if format in {"txt", "text"} then Ok(DumpText)
    else Err(InvArg)
  }

  /** The format named by a file extension. */
  function ExtensionFormat(ext: string): (r: Result<string>)
    ensures r.Ok? <==> ext in {".yml", ".yaml", ".txt", ".text", ".json"}
    ensures r.Ok? ==> FormatKind(r.value).Ok?
  {
    if ext in {".yml", ".yaml"} then Ok("yml")
    else if ext in {".txt", ".text"} then Ok("txt")
    else if ext == ".json" then Ok("json")
    else Err(InvArg)
  }

  /** `dump_file`'s format choice: an explicit format, compared in lower
      case, wins over the extension of the output name; the extension is
      taken after removing a compression suffix. */
  function DumpFormat(outname: Io.PathArg, format: Option<string>): (r: Result<DumpKind>)
    ensures format.Some? ==> r == FormatKind(Lower(format.value))
    ensures format.None? && Io.BaseExtension(outname) in {".yml", ".yaml"} ==> r == Ok(DumpYaml)
    ensures format.None? && Io.BaseExtension(outname) in {".txt", ".text"} ==> r == Ok(DumpText)
    ensures format.None? && Io.BaseExtension(outname) == ".json" ==> r == Ok(DumpJson)
    ensures format.None? && Io.BaseExtension(outname) !in {".yml", ".yaml", ".txt", ".text", ".json"} ==> r == Err(InvArg)
  {
    var ext := Io.BaseExtension(outname);
    var name :- if format.Some? then Ok(Lower(format.value)) else ExtensionFormat(ext);
    FormatKind(name)
  }

  /** A plain name with one dotted extension: the extension is its suffix. */
  lemma SuffixOfDotted(n: string, t: string)
    requires |n| > 0 && |t| > 0 && '.' !in n && '.' !in t && '/' !in n && '/' !in t
    ensures Io.PathName(n + "." + t) == n + "." + t
    ensures Io.Suffix(n + "." + t) == "." + t
  {
    var s := n + "." + t;
    assert s == n + ['.'] + t;
    assert s[|n|] == '.';
    assert '/' !in s;
    Io.PlainName(s);
    Io.RFindLast(s, '.', |n|);
    assert s[|n|..] == "." + t;
  }

  /** A YAML file name, compressed or not, is dumped as YAML. */
  lemma DumpFormatYamlName(n: string, c: string)
    requires |n| > 0 && '.' !in n && '/' !in n && c in Io.Compressions
    ensures DumpFormat(Io.StrArg(n + ".yml"), None) == Ok(DumpYaml)
    ensures DumpFormat(Io.StrArg(n + ".yml" + c), None) == Ok(DumpYaml)
  {
    SuffixOfDotted(n, "yml");
    assert n + "." + "yml" == n + ".yml";
    assert "." + "yml" == ".yml";
    assert Io.Suffix(n + ".yml") !in Io.Compressions;
    Io.BaseExtensionPlain(n + ".yml");
    Io.BaseExtensionStripsOne(n + ".yml", c);
  }

  /** An explicit format name is case-insensitive and ignores the name. */
  lemma DumpFormatExplicit(outname: Io.PathArg)
    ensures DumpFormat(outname, Some("YAML")) == Ok(DumpYaml)
    ensures DumpFormat(outname, Some("Json")) == Ok(DumpJson)
  {
    assert Lower("YAML") == "yaml";
    assert Lower("Json") == "json";
  }

  // -------------------------------------------------------------------
  // load_file: checking a parsed document file and choosing its class

  /** `hdr.get("document", {}).get("type")` */
  function HeaderType(hdr: map<string, Value>): (r: Result<Value>)
    ensures r.Ok? <==> Get(hdr, META_DOC, Dict(map[])).Dict?
    ensures r.Ok? ==> r.value == Get(Get(hdr, META_DOC, Dict(map[])).fields, "type", Null)
  {
    GetAttr(Get(hdr, META_DOC, Dict(map[])), "type", Null)
  }

  /** The class dispatch on the header's type as written: the test meant for
      a missing type compares the builtin `type` with None, so a header
      without a type is refused. */
  function DocTypeOfHeaderAsWritten(dtype: Value): (r: Result<DocType>)
    ensures r.Ok? ==> dtype == Str(DocTypeTag(r.value))
    ensures r.Err? ==> r.error == InvalidDocument
  {
    if dtype == Str("tree") then Ok(Tree)
    else if dtype == Str("table") then Ok(Table)
    else if dtype == Str("sequence") then Ok(Sequence)
    else Err(InvalidDocument)
  }

  /** The dispatch as intended: a missing type means a sequence. */
  function DocTypeOfHeader(dtype: Value): (r: Result<DocType>)
    ensures dtype != Null ==> r == DocTypeOfHeaderAsWritten(dtype)
    ensures dtype == Null ==> r == Ok(Sequence)
  {
    if dtype == Null then Ok(Sequence) else DocTypeOfHeaderAsWritten(dtype)
  }

  lemma HeaderWithoutType()
    ensures DocTypeOfHeaderAsWritten(Null) == Err(InvalidDocument)
    ensures DocTypeOfHeader(Null) == Ok(Sequence)
  {
  }

  /** `hdr[name].update(d)` for each metadata section (or `hdr[name] = d`
      for a new one). */
  function MergeHeader(hdr: map<string, Value>, metadata: Meta): (r: Result<map<string, Value>>)
    ensures r.Ok? <==> forall k :: k in metadata && k in hdr ==> hdr[k].Dict?
    ensures r.Err? ==> r.error == PyError(AttributeError)
    ensures r.Ok? ==> r.value.Keys == hdr.Keys + metadata.Keys
    ensures r.Ok? ==> forall k :: k in hdr && k !in metadata ==> r.value[k] == hdr[k]
    ensures r.Ok? ==> forall k :: k in metadata && k !in hdr ==> r.value[k] == Dict(metadata[k])
    ensures r.Ok? ==> forall k :: k in metadata && k in hdr ==> r.value[k] == Dict(Update(hdr[k].fields, metadata[k]))
  {
    if DictsAt(hdr, metadata.Keys) then Ok(MergedUpTo(hdr, metadata, metadata.Keys))
    else Err(PyError(AttributeError))
  }

  /** The existing sections named in `keys` are dicts. */
  predicate DictsAt(hdr: map<string, Value>, keys: set<string>)
  {
    forall k :: k in keys && k in hdr ==> hdr[k].Dict?
  }

  /** The header once the metadata sections in `done` are merged. */
  function MergedUpTo(hdr: map<string, Value>, metadata: Meta, done: set<string>): map<string, Value>
    requires done <= metadata.Keys && DictsAt(hdr, done)
  {
    map k | k in hdr.Keys + done ::
      if k !in done then hdr[k]
      else if k in hdr then Dict(Update(hdr[k].fields, metadata[k]))
      else Dict(metadata[k])
  }

  /** What `load_file` builds: the class, the stored chunks and the header
      that becomes the document's metadata. */
  datatype Loaded = Loaded(kind: DocType, chunks: Value, header: map<string, Value>)

  function LoadSpec(data: map<string, Value>, metadata: Option<Meta>): (r: Result<Loaded>)
    ensures "format" !in data ==> r == Err(InvalidDocument)
    ensures r.Ok? ==> Get(data, "format", Null) == Str(FMT_SRCDOCUMENT)
  {
    if "format" !in data || data["format"] != Str(FMT_SRCDOCUMENT) then Err(InvalidDocument)
    else
      var hdr := Get(data, "header", Dict(map[]));
      if !hdr.Dict? then Err(PyError(AttributeError))
      else
        var dtype :- HeaderType(hdr.fields);
        var merged :- if metadata.Some? then MergeHeader(hdr.fields, metadata.value) else Ok(hdr.fields);
        var kind :- DocTypeOfHeader(dtype);
        Ok(Loaded(kind, Get(data, "chunks", Null), merged))
  }

  /** The class is chosen by the file's own header: metadata passed in,
      even a document section with a type, does not change it. */
  lemma LoadKindFromFile(data: map<string, Value>, metadata: Meta)
    requires LoadSpec(data, Some(metadata)).Ok?
    ensures LoadSpec(data, None).Ok?
    ensures LoadSpec(data, Some(metadata)).value.kind == LoadSpec(data, None).value.kind
  {
  }

  /** A file whose header names a document type loads as that type, with
      the file's chunks and its header. */
  lemma LoadDeclared(chunks: Value, t: DocType)
    ensures LoadSpec(map["format" := Str(FMT_SRCDOCUMENT), "header" := Dict(map[META_DOC := Dict(map["type" := Str(DocTypeTag(t))])]), "chunks" := chunks], None).Ok?
    ensures LoadSpec(map["format" := Str(FMT_SRCDOCUMENT), "header" := Dict(map[META_DOC := Dict(map["type" := Str(DocTypeTag(t))])]), "chunks" := chunks], None).value
      == Loaded(t, chunks, map[META_DOC := Dict(map["type" := Str(DocTypeTag(t))])])
  {
  }

  /** The merge loop of `load_file`: each metadata section is added to the
      header, or updates the section of the same name, which must be a
      dict. */
  method MergeMetadata(h0: map<string, Value>, md: Meta) returns (r: Result<map<string, Value>>)
    ensures r == MergeHeader(h0, md)
  {
    var hdr := h0;
    var todo := md.Keys;
    ghost var done: set<string> := {};
    assert hdr == MergedUpTo(h0, md, done);
    while todo != {}
      invariant todo == md.Keys - done && done <= md.Keys
      invariant DictsAt(h0, done) && hdr == MergedUpTo(h0, md, done)
      decreases todo
    {
      var k :| k in todo;
      if k in hdr && !hdr[k].Dict? {
        assert k in h0 && !h0[k].Dict?;
        return Err(PyError(AttributeError));
      }
      MergeOne(h0, md, done, k);
      if k !in hdr {
        hdr := hdr[k := Dict(md[k])];
      } else {
        hdr := hdr[k := Dict(Update(hdr[k].fields, md[k]))];
      }
      todo := todo - {k};
      done := done + {k};
    }
    assert done == md.Keys;
    r := Ok(hdr);
  }

  /** Merging one more section updates only that section. */
  lemma MergeOne(h0: map<string, Value>, md: Meta, done: set<string>, k: string)
    requires done <= md.Keys && DictsAt(h0, done) && k in md && k !in done
    requires k in h0 ==> h0[k].Dict?
    ensures DictsAt(h0, done + {k})
    ensures var m := MergedUpTo(h0, md, done);
      MergedUpTo(h0, md, done + {k}) ==
        if k !in m then m[k := Dict(md[k])] else m[k := Dict(Update(m[k].fields, md[k]))]
  {
    var m := MergedUpTo(h0, md, done);
    var m2 := MergedUpTo(h0, md, done + {k});
    if k in m {
      assert m[k] == h0[k];
    }
  }

  /** `load_file` on the parsed data of a file. */
  method LoadFile(data: map<string, Value>, metadata: Option<Meta>) returns (r: Result<Loaded>)
    ensures r == LoadSpec(data, metadata)
  {
    if "format" !in data {
      return Err(InvalidDocument);
    }
    if data["format"] != Str(FMT_SRCDOCUMENT) {
      return Err(InvalidDocument);
    }
    var header := Get(data, "header", Dict(map[]));
    if !header.Dict? {
      return Err(PyError(AttributeError));
    }
    var dtype := HeaderType(header.fields);
    if dtype.Err? {
      return Err(dtype.error);
    }
    var hdr := header.fields;
    if metadata.Some? {
      var merged := MergeMetadata(hdr, metadata.value);
      if merged.Err? {
        return Err(merged.error);
      }
      hdr := merged.value;
    }
    var kind := DocTypeOfHeader(dtype.value);
    if kind.Err? {
      return Err(kind.error);
    }
    r := Ok(Loaded(kind.value, Get(data, "chunks", Null), hdr));
  }
}
