// Iterating a PII collection chunk by chunk (types/piicollection/chunk.py):
// consecutive entities with the same chunk id form one group, and each group
// is returned sorted by position. The iterator consumes a shared peeker, so
// asking for a chunk takes exactly the leading run of entities of that chunk.

module PiiChunks {
  import opened Values
  import opened PiiEntities
  import opened Peeker

  // -------------------------------------------------------------------
  // Ordering a group by position

  /** Positions are compared as integers. */
  predicate IntPositions(es: seq<Entity>)
  {
    forall k :: 0 <= k < |es| ==> es[k].pos.Int?
  }

  /** The sorting below works on any element type with an integer key; for
      entities the key is the position. */
  predicate Sorted<T>(es: seq<T>, key: T -> int)
  {
    forall i, j :: 0 <= i < j < |es| ==> key(es[i]) <= key(es[j])
  }

  /** The elements of `es` with key `p`, in their order in `es`. */
  function AtKey<T>(es: seq<T>, key: T -> int, p: int): (r: seq<T>)
    ensures |r| <= |es|
  {
    if |es| == 0 then []
    else (if key(es[0]) == p then [es[0]] else []) + AtKey(es[1..], key, p)
  }

  lemma {:induction false} AtKeyAppend<T>(a: seq<T>, b: seq<T>, key: T -> int, p: int)
    ensures AtKey(a + b, key, p) == AtKey(a, key, p) + AtKey(b, key, p)
  {
    if |a| == 0 {
      assert a + b == b;
    } else {
      AppendTail(a, b);
      AtKeyAppend(a[1..], b, key, p);
      AtKeyCons(a + b, key, p);
      AtKeyCons(a, key, p);
      ConcatAssoc(if key(a[0]) == p then [a[0]] else [], AtKey(a[1..], key, p), AtKey(b, key, p));
    }
  }

  lemma AtKeyCons<T>(es: seq<T>, key: T -> int, p: int)
    requires |es| > 0
    ensures AtKey(es, key, p) == (if key(es[0]) == p then [es[0]] else []) + AtKey(es[1..], key, p)
  {
  }

  /** No element of a sorted list has a key below its first key. */
  lemma {:induction false} AtKeyBelow<T>(es: seq<T>, key: T -> int, p: int)
    requires Sorted(es, key) && |es| > 0 && p < key(es[0])
    ensures AtKey(es, key, p) == []
  {
    if |es| > 1 {
      AtKeyBelow(es[1..], key, p);
    }
  }

  /** Insert `x` into a sorted list after every element whose key is not
      larger than its own. */
  function Insert<T>(x: T, es: seq<T>, key: T -> int): (r: seq<T>)
    ensures |r| == |es| + 1
    ensures multiset(r) == multiset(es) + multiset{x}
  {
    if |es| == 0 then [x]
    else if key(x) < key(es[0]) then [x] + es
    else
      assert es == [es[0]] + es[1..];
      [es[0]] + Insert(x, es[1..], key)
  }

  lemma {:induction false} InsertSorted<T>(x: T, es: seq<T>, key: T -> int)
    requires Sorted(es, key)
    ensures Sorted(Insert(x, es, key), key)
    ensures |es| > 0 ==> Insert(x, es, key)[0] == (if key(x) < key(es[0]) then x else es[0])
  {
    if |es| > 0 && key(x) >= key(es[0]) {
      InsertSorted(x, es[1..], key);
    }
  }

  /** Insertion keeps the relative order of equal keys: `x` comes after the
      elements with its own key. */
  lemma {:induction false} InsertAtKey<T>(x: T, es: seq<T>, key: T -> int, p: int)
    requires Sorted(es, key)
    ensures AtKey(Insert(x, es, key), key, p) == AtKey(es, key, p) + (if key(x) == p then [x] else [])
  {
    var tail := if key(x) == p then [x] else [];
    if |es| == 0 {
      AtKeyOne(x, key, p);
    } else if key(x) < key(es[0]) {
      InsertUnfold(x, es, key);
      AtKeyAppend([x], es, key, p);
      AtKeyOne(x, key, p);
      if key(x) == p {
        AtKeyBelow(es, key, p);
      }
    } else {
      InsertUnfold(x, es, key);
      SortedTail(es, key);
      InsertAtKey(x, es[1..], key, p);
      AtKeyAppend([es[0]], Insert(x, es[1..], key), key, p);
      AtKeyAppend([es[0]], es[1..], key, p);
      ConsTail(es);
      ConcatAssoc(AtKey([es[0]], key, p), AtKey(es[1..], key, p), tail);
    }
  }

  lemma InsertUnfold<T>(x: T, es: seq<T>, key: T -> int)
    requires |es| > 0
    ensures Insert(x, es, key) == if key(x) < key(es[0]) then [x] + es else [es[0]] + Insert(x, es[1..], key)
  {
  }

  lemma SortedTail<T>(es: seq<T>, key: T -> int)
    requires |es| > 0 && Sorted(es, key)
    ensures Sorted(es[1..], key)
  {
    forall i, j | 0 <= i < j < |es| - 1 ensures key(es[1..][i]) <= key(es[1..][j]) {
      assert es[1..][i] == es[i + 1] && es[1..][j] == es[j + 1];
    }
  }

  /** A stable insertion sort by key. */
  function SortBy<T>(es: seq<T>, key: T -> int): (r: seq<T>)
    ensures |r| == |es| && multiset(r) == multiset(es)
  {
    if |es| == 0 then []
    else
      var pre := es[..|es| - 1];
      assert es == pre + [es[|es| - 1]];
      Insert(es[|es| - 1], SortBy(pre, key), key)
  }

  /** Sorting at most one element changes nothing. */
  lemma SortByShort<T>(es: seq<T>, key: T -> int)
    requires |es| <= 1
    ensures SortBy(es, key) == es
  {
    if |es| == 1 {
      assert es[..0] == [];
    }
  }

  /** The sort orders by key. */
  lemma {:induction false} SortBySorted<T>(es: seq<T>, key: T -> int)
    ensures Sorted(SortBy(es, key), key)
  {
    if |es| > 0 {
      SortBySorted(es[..|es| - 1], key);
      InsertSorted(es[|es| - 1], SortBy(es[..|es| - 1], key), key);
    }
  }

  /** The sort is stable: the elements with any one key keep their original
      order. */
  lemma {:induction false} SortByStable<T>(es: seq<T>, key: T -> int, p: int)
    ensures AtKey(SortBy(es, key), key, p) == AtKey(es, key, p)
  {
    if |es| > 0 {
      var pre, x := es[..|es| - 1], es[|es| - 1];
      SortByStable(pre, key, p);
      SortBySorted(pre, key);
      InsertAtKey(x, SortBy(pre, key), key, p);
      SortBySnoc(es, key);
      SnocLast(es);
      AtKeyOne(x, key, p);
      AtKeyAppend(pre, [x], key, p);
    }
  }

  lemma SortBySnoc<T>(es: seq<T>, key: T -> int)
    requires |es| > 0
    ensures SortBy(es, key) == Insert(es[|es| - 1], SortBy(es[..|es| - 1], key), key)
  {
  }

  lemma AtKeyOne<T>(x: T, key: T -> int, p: int)
    ensures AtKey([x], key, p) == if key(x) == p then [x] else []
  {
    assert [x][1..] == [];
  }

  /** The position of an entity as a number (0 for a non-integer position,
      which `SortGroup` never sorts). */
  function PosKey(e: Entity): int
  {
    if e.pos.Int? then e.pos.i else 0
  }

  /** `sorted(group, key=attrgetter("pos"))` on integer positions. */
  function SortByPos(es: seq<Entity>): (r: seq<Entity>)
    ensures |r| == |es| && multiset(r) == multiset(es)
  {
    SortBy(es, PosKey)
  }

  /** Stated for entities: the sorted group holds the same entities, at
      integer positions, in ascending position, and the entities at any one
      position keep their original order. */
  lemma SortByPosStable(es: seq<Entity>, p: int)
    requires IntPositions(es)
    ensures IntPositions(SortByPos(es)) && Sorted(SortByPos(es), PosKey)
    ensures AtKey(SortByPos(es), PosKey, p) == AtKey(es, PosKey, p)
  {
    SortBySorted(es, PosKey);
    SortByStable(es, PosKey, p);
    forall k | 0 <= k < |es| ensures SortByPos(es)[k].pos.Int? {
      assert SortByPos(es)[k] in multiset(es);
    }
  }

  /** Sorting a group: a group of several entities needs comparable
      positions; comparing other values is reported as a TypeError. */
  function SortGroup(es: seq<Entity>): (r: Result<seq<Entity>>)
    ensures IntPositions(es) ==> r == Ok(SortByPos(es))
    ensures |es| <= 1 ==> r == Ok(es)
    ensures !IntPositions(es) && |es| > 1 ==> r == Err(PyError(TypeError))
  {
    if |es| <= 1 then
      SortByShort(es, PosKey);
      Ok(es)
    else if IntPositions(es) then Ok(SortByPos(es))
    else Err(PyError(TypeError))
  }

  // -------------------------------------------------------------------
  // Runs of entities of one chunk

  /** The id of the chunk an entity points to, as compared: `str(chunkid)`. */
  function ChunkKey(e: Entity): (r: Result<string>)
    ensures "chunkid" in e.fields ==> r == Ok(PyStr(e.fields["chunkid"]))
    ensures "chunkid" !in e.fields ==> r == Err(PyError(KeyError))
  {
    if "chunkid" in e.fields then Ok(PyStr(e.fields["chunkid"])) else Err(PyError(KeyError))
  }

  /** `not entity`: an entity is false when its value is empty (PiiEntity
      defines `__len__`); a value without a length makes the test fail. */
  function IsEmpty(e: Entity): (r: Result<bool>)
    ensures Len(e).Ok? ==> r == Ok(Len(e).value == 0)
    ensures Len(e).Err? ==> r == Err(Len(e).error)
  {
    match Len(e)
    case Ok(n) => Ok(n == 0)
    case Err(err) => Err(err)
  }

  /** An entity that takes part in the iteration: non-empty and readable. */
  predicate Live(e: Entity)
  {
    IsEmpty(e) == Ok(false) && ChunkKey(e).Ok?
  }

  /** What the loops see when they peek: None (at the end or at an empty
      entity, both of which end them) or the chunk key of the next entity;
      an entity without a length or a chunk id fails. */
  function HeadOf(p: Option<Entity>): (r: Result<Option<string>>)
    ensures p.None? ==> r == Ok(None)
    ensures p.Some? && IsEmpty(p.value) == Ok(true) ==> r == Ok(None)
    ensures p.Some? && Live(p.value) ==> r == Ok(Some(ChunkKey(p.value).value))
    ensures r.Ok? && r.value.Some? ==> p.Some? && Live(p.value) && r.value.value == PyStr(p.value.fields["chunkid"])
  {
    match p
    case None => Ok(None)
    case Some(e) =>
      match IsEmpty(e)
      case Err(err) => Err(err)
      case Ok(empty) =>
        if empty then Ok(None)
        else
          match ChunkKey(e)
          case Err(err) => Err(err)
          case Ok(key) => Ok(Some(key))
  }

  /** The head of a list of entities, as peeked. */
  function Head(es: seq<Entity>): (r: Result<Option<string>>)
    ensures |es| == 0 ==> r == Ok(None)
    ensures r.Ok? && r.value.Some? ==> |es| > 0 && Live(es[0]) && r.value.value == PyStr(es[0].fields["chunkid"])
  {
    HeadOf(if |es| == 0 then None else Some(es[0]))
  }

  /** A count carried over a failure. */
  function Shift(r: Result<nat>, d: nat): Result<nat>
  {
    match r
    case Ok(m) => Ok(m + d)
    case Err(e) => Err(e)
  }

  /** Groups put in front of a result, carried over a failure. */
  function PrependAll(gs: seq<seq<Entity>>, r: Result<seq<seq<Entity>>>): Result<seq<seq<Entity>>>
  {
    match r
    case Ok(rest) => Ok(gs + rest)
    case Err(e) => Err(e)
  }

  lemma PrependAllTwice(a: seq<seq<Entity>>, b: seq<seq<Entity>>, r: Result<seq<seq<Entity>>>)
    ensures PrependAll(a, PrependAll(b, r)) == PrependAll(a + b, r)
  {
    if r.Ok? {
      assert a + (b + r.value) == (a + b) + r.value;
    }
  }

  /** The length of the leading run of entities of chunk `cid` (as
      `_chunk_pii` consumes it): it stops at the end, at an empty entity or
      at an entity of another chunk, and fails where peeking fails. */
  function Run(es: seq<Entity>, cid: string): (r: Result<nat>)
    ensures r.Ok? ==> r.value <= |es|
    ensures r.Ok? ==> forall k :: 0 <= k < r.value ==> Live(es[k]) && ChunkKey(es[k]).value == cid
    ensures r.Ok? ==> Head(es[r.value..]).Ok? && Head(es[r.value..]).value != Some(cid)
    ensures Head(es) == Ok(Some(cid)) && r.Ok? ==> r.value > 0
    ensures (forall k :: 0 <= k < |es| ==> Live(es[k])) ==> r.Ok?
  {
    match Head(es)
    case Err(e) => Err(e)
    case Ok(h) =>
      if h != Some(cid) then
        assert es[0..] == es;
        Ok(0)
      else
        var rest := Run(es[1..], cid);
        if rest.Ok? then RunGrows(es, cid, rest.value); Ok(rest.value + 1)
        else Err(rest.error)
  }

  /** A run of `m` entities after a head entity of chunk `cid` is a run of
      `m + 1` from that head. */
  lemma RunGrows(es: seq<Entity>, cid: string, m: nat)
    requires Head(es) == Ok(Some(cid)) && m <= |es| - 1
    requires forall k :: 0 <= k < m ==> Live(es[1..][k]) && ChunkKey(es[1..][k]).value == cid
    ensures forall k :: 0 <= k < m + 1 ==> Live(es[k]) && ChunkKey(es[k]).value == cid
    ensures es[1..][m..] == es[m + 1..]
  {
    forall k | 0 <= k < m + 1
      ensures Live(es[k]) && ChunkKey(es[k]).value == cid
    {
      if k > 0 { assert es[k] == es[1..][k - 1]; }
    }
  }

  lemma RunCons(es: seq<Entity>, cid: string)
    requires Head(es) == Ok(Some(cid))
    ensures |es| > 0 && Run(es, cid) == Shift(Run(es[1..], cid), 1)
  {
  }

  lemma ShiftTwice(r: Result<nat>, a: nat, b: nat)
    ensures Shift(Shift(r, a), b) == Shift(r, a + b)
  {
  }

  /** `chunks()` before sorting: the entities cut into maximal runs of equal
      chunk id, up to the end or to the first empty entity. */
  function Runs(es: seq<Entity>): (r: Result<seq<seq<Entity>>>)
    ensures Head(es).Err? ==> r == Err(Head(es).error)
    ensures Head(es) == Ok(None) ==> r == Ok([])
    ensures r.Ok? ==> forall k :: 0 <= k < |r.value| ==> |r.value[k]| > 0
    decreases |es|
  {
    match Head(es)
    case Err(e) => Err(e)
    case Ok(None) => Ok([])
    case Ok(Some(key)) =>
      match Run(es, key)
      case Err(e) => Err(e)
      case Ok(n) => PrependAll([es[..n]], Runs(es[n..]))
  }

  /** `chunks()`: every run, sorted by position. */
  function Groups(es: seq<Entity>): (r: Result<seq<seq<Entity>>>)
    ensures Head(es).Err? ==> r == Err(Head(es).error)
    ensures Head(es) == Ok(None) ==> r == Ok([])
    ensures r.Ok? ==> Runs(es).Ok? && |r.value| == |Runs(es).value|
    decreases |es|
  {
    match Head(es)
    case Err(e) => Err(e)
    case Ok(None) => Ok([])
    case Ok(Some(key)) =>
      match Run(es, key)
      case Err(e) => Err(e)
      case Ok(n) =>
        match SortGroup(es[..n])
        case Err(e) => Err(e)
        case Ok(g) => PrependAll([g], Groups(es[n..]))
  }

  function Concat(gs: seq<seq<Entity>>): seq<Entity>
  {
    if |gs| == 0 then [] else gs[0] + Concat(gs[1..])
  }

  /** Entities that are all non-empty, readable and at integer positions. */
  predicate Orderly(es: seq<Entity>)
  {
    forall k :: 0 <= k < |es| ==> Live(es[k]) && es[k].pos.Int?
  }

  lemma OrderlySuffix(es: seq<Entity>, n: nat)
    requires Orderly(es) && n <= |es|
    ensures Orderly(es[n..])
  {
    forall k | 0 <= k < |es| - n ensures Live(es[n..][k]) && es[n..][k].pos.Int? {
      assert es[n..][k] == es[n + k];
    }
  }

  /** A non-empty list of entities of one chunk. */
  predicate OneChunk(g: seq<Entity>)
  {
    |g| > 0 && forall k :: 0 <= k < |g| ==> ChunkKey(g[k]) == ChunkKey(g[0])
  }

  /** One step of `Runs` on orderly entities: the first run is the leading
      run of the first entity's chunk. */
  lemma RunsStep(es: seq<Entity>) returns (n: nat)
    requires Orderly(es) && |es| > 0
    ensures 0 < n <= |es| && Run(es, ChunkKey(es[0]).value) == Ok(n)
    ensures Runs(es) == PrependAll([es[..n]], Runs(es[n..]))
    ensures Groups(es) == PrependAll([SortByPos(es[..n])], Groups(es[n..]))
    ensures OneChunk(es[..n]) && IntPositions(es[..n]) && Orderly(es[n..])
    ensures n < |es| ==> ChunkKey(es[n]) != ChunkKey(es[0])
  {
    var key := ChunkKey(es[0]).value;
    OrderlyHead(es);
    n := Run(es, key).value;
    RunsUnfold(es, key, n);
    OrderlySuffix(es, n);
    OrderlyPrefix(es, n);
    RunOneChunk(es, key, n);
    if n < |es| {
      OrderlyHead(es[n..]);
      assert es[n..][0] == es[n];
    }
  }

  /** The head of orderly entities is the first one's chunk. */
  lemma OrderlyHead(es: seq<Entity>)
    requires Orderly(es) && |es| > 0
    ensures ChunkKey(es[0]).Ok? && Head(es) == Ok(Some(ChunkKey(es[0]).value))
    ensures Run(es, ChunkKey(es[0]).value).Ok?
  {
  }

  /** `Runs` and `Groups` take the leading run first. */
  lemma RunsUnfold(es: seq<Entity>, key: string, n: nat)
    requires Head(es) == Ok(Some(key)) && Run(es, key) == Ok(n) && IntPositions(es[..n])
    ensures n <= |es|
    ensures Runs(es) == PrependAll([es[..n]], Runs(es[n..]))
    ensures Groups(es) == PrependAll([SortByPos(es[..n])], Groups(es[n..]))
  {
  }

  lemma OrderlyPrefix(es: seq<Entity>, n: nat)
    requires Orderly(es) && n <= |es|
    ensures IntPositions(es[..n])
  {
    forall k | 0 <= k < n ensures es[..n][k].pos.Int? {
      assert es[..n][k] == es[k];
    }
  }

  /** The leading run is of one chunk, and what follows it is not. */
  lemma RunOneChunk(es: seq<Entity>, key: string, n: nat)
    requires Orderly(es) && |es| > 0 && key == ChunkKey(es[0]).value && Run(es, key) == Ok(n)
    ensures 0 < n <= |es| && OneChunk(es[..n])
    ensures n < |es| ==> ChunkKey(es[n]) != ChunkKey(es[0])
  {
    OrderlyHead(es);
    forall k | 0 <= k < n ensures ChunkKey(es[..n][k]) == ChunkKey(es[..n][0]) {
      assert es[..n][k] == es[k] && es[..n][0] == es[0];
    }
    if n < |es| {
      OrderlyHead(es[n..]);
      assert es[n..][0] == es[n];
    }
  }

  /** Two runs of different chunks. */
  predicate Differ(a: seq<Entity>, b: seq<Entity>)
  {
    |a| > 0 && |b| > 0 && ChunkKey(a[0]) != ChunkKey(b[0])
  }

  /** Runs that are each of one chunk, neighbours of different chunks. */
  predicate Maximal(rs: seq<seq<Entity>>)
  {
    (forall i :: 0 <= i < |rs| ==> OneChunk(rs[i]))
    && forall i :: 0 <= i < |rs| - 1 ==> Differ(rs[i], rs[i + 1])
  }

  lemma MaximalCons(g: seq<Entity>, rs: seq<seq<Entity>>)
    requires OneChunk(g) && Maximal(rs)
    requires |rs| > 0 ==> Differ(g, rs[0])
    ensures Maximal([g] + rs)
  {
    var all := [g] + rs;
    forall i | 0 <= i < |all| - 1 ensures Differ(all[i], all[i + 1]) {
      if i > 0 {
        assert all[i] == rs[i - 1] && all[i + 1] == rs[i];
      }
    }
  }

  /** On orderly entities the runs cover every entity exactly once, in
      order; each run is non-empty and of one chunk, and two neighbouring
      runs are of different chunks. */
  lemma {:induction false} RunsPartition(es: seq<Entity>)
    requires Orderly(es)
    ensures Runs(es).Ok?
    ensures Concat(Runs(es).value) == es
    ensures Maximal(Runs(es).value)
    decreases |es|
  {
    if |es| == 0 {
      assert Head(es) == Ok(None);
    } else {
      var n := RunsStep(es);
      var tail := es[n..];
      RunsPartition(tail);
      var rt := Runs(tail).value;
      ConcatCons(es[..n], rt);
      SplitJoin(es, n);
      if |rt| > 0 {
        ConcatFirst(rt);
        assert es[n..][0] == es[n];
      }
      MaximalCons(es[..n], rt);
    }
  }

  lemma SplitJoin(es: seq<Entity>, n: nat)
    requires n <= |es|
    ensures es[..n] + es[n..] == es
  {
  }

  lemma ConcatCons(g: seq<Entity>, rs: seq<seq<Entity>>)
    ensures Concat([g] + rs) == g + Concat(rs)
  {
    assert ([g] + rs)[1..] == rs;
  }

  /** The first entity of a list of runs is the first of its first run. */
  lemma ConcatFirst(rs: seq<seq<Entity>>)
    requires |rs| > 0 && |rs[0]| > 0
    ensures |Concat(rs)| > 0 && Concat(rs)[0] == rs[0][0]
  {
  }

  /** On orderly entities each group is its run sorted by position. */
  lemma {:induction false} GroupsAreSortedRuns(es: seq<Entity>)
    requires Orderly(es)
    ensures Runs(es).Ok? && Groups(es).Ok?
    ensures |Groups(es).value| == |Runs(es).value|
    ensures forall i :: 0 <= i < |Runs(es).value| ==>
      IntPositions(Runs(es).value[i]) && Groups(es).value[i] == SortByPos(Runs(es).value[i])
    decreases |es|
  {
    if |es| == 0 {
      assert Head(es) == Ok(None);
    } else {
      var n := RunsStep(es);
      GroupsAreSortedRuns(es[n..]);
    }
  }

  /** Taking one more entity from the front of `u`. */
  /** Where a run that has taken `n` entities of `u` goes next, by the
      head of what is left. */
  lemma RunAfter(u: seq<Entity>, n: nat, cid: string)
    requires n <= |u| && Run(u, cid) == Shift(Run(u[n..], cid), n)
    ensures Head(u[n..]).Err? ==> Run(u, cid) == Err(Head(u[n..]).error)
    ensures Head(u[n..]).Ok? && Head(u[n..]).value != Some(cid) ==> Run(u, cid) == Ok(n)
    ensures Head(u[n..]) == Ok(Some(cid)) ==>
      n < |u| && Run(u, cid) == Shift(Run(u[n + 1..], cid), n + 1) && u[..n + 1] == u[..n] + [u[n]]
  {
    var rest := u[n..];
    if Head(rest).Err? {
      assert Run(rest, cid) == Err(Head(rest).error);
    } else if Head(rest).value != Some(cid) {
      assert Run(rest, cid) == Ok(0);
    } else {
      RunCons(rest, cid);
      TakeOneMore(u, n);
      ShiftTwice(Run(u[n + 1..], cid), 1, n);
    }
  }

  lemma TakeOneMore(u: seq<Entity>, n: nat)
    requires n < |u|
    ensures u[..n + 1] == u[..n] + [u[n]] && u[n..][0] == u[n] && u[n + 1..] == u[n..][1..]
  {
  }

  // -------------------------------------------------------------------
  // The iterator

  class PiiChunkIterator {
    const piic: IterationPeeker<Entity>
    /** `size`: the number of entities in the collection. */
    const size: nat

    /** Wraps the entities of a collection (its `pii` list) in a peeker. */
    constructor (pii: seq<Entity>)
      ensures size == |pii|
      ensures fresh(piic) && piic.Upcoming() == pii
    {
      var src := seq(|pii|, k requires 0 <= k < |pii| => Some(pii[k]));
      UntilNoneAll(src);
      piic := new IterationPeeker(src);
      size := |pii|;
      new;
      assert forall k :: 0 <= k < |pii| ==> piic.Upcoming()[k] == pii[k];
    }

    /** What peeking shows is the head of the entities still to come. */
    method PeekHead() returns (h: Result<Option<string>>, p: Option<Entity>)
      ensures h == Head(piic.Upcoming()) && h == HeadOf(p)
      ensures p.Some? ==> |piic.Upcoming()| > 0 && p.value == piic.Upcoming()[0]
    {
      p := piic.Peek();
      h := HeadOf(p);
    }

    /** `_chunk_pii(chunkid)`: take the leading run of entities of that
        chunk (ids compared as strings). */
    method ChunkPii(chunkid: Value) returns (r: Result<seq<Entity>>)
      modifies piic
      ensures Run(old(piic.Upcoming()), PyStr(chunkid)).Err? ==>
        r == Err(Run(old(piic.Upcoming()), PyStr(chunkid)).error)
      ensures Run(old(piic.Upcoming()), PyStr(chunkid)).Ok? ==>
        var n := Run(old(piic.Upcoming()), PyStr(chunkid)).value;
        r == Ok(old(piic.Upcoming())[..n]) && piic.Upcoming() == old(piic.Upcoming())[n..]
    {
      var cid := PyStr(chunkid);
      ghost var u0 := piic.Upcoming();
      var taken: seq<Entity> := [];
      while true
        invariant |taken| <= |u0| && taken == u0[..|taken|] && piic.Upcoming() == u0[|taken|..]
        invariant Run(u0, cid) == Shift(Run(piic.Upcoming(), cid), |taken|)
        decreases |piic.Upcoming()|
      {
        var h, p := PeekHead();
        RunAfter(u0, |taken|, cid);
        if h.Err? {
          return Err(h.error);
        }
        if h.value != Some(cid) {
          return Ok(taken);
        }
        var x := piic.Next();
        taken := taken + [x.value];
      }
    }

    /** `__call__(chunkid)`: the leading run of that chunk, sorted by
        position. */
    method Call(chunkid: Value) returns (r: Result<seq<Entity>>)
      modifies piic
      ensures Run(old(piic.Upcoming()), PyStr(chunkid)).Err? ==>
        r == Err(Run(old(piic.Upcoming()), PyStr(chunkid)).error)
      ensures Run(old(piic.Upcoming()), PyStr(chunkid)).Ok? ==>
        var n := Run(old(piic.Upcoming()), PyStr(chunkid)).value;
        r == SortGroup(old(piic.Upcoming())[..n]) && piic.Upcoming() == old(piic.Upcoming())[n..]
    {
      var run := ChunkPii(chunkid);
      if run.Err? {
        return run;
      }
      r := SortGroup(run.value);
    }

    /** `chunks()`: one group per chunk, until the entities run out or an
        empty entity is met. */
    method Chunks() returns (r: Result<seq<seq<Entity>>>)
      modifies piic
      ensures r == Groups(old(piic.Upcoming()))
    {
      ghost var u0 := piic.Upcoming();
      var groups: seq<seq<Entity>> := [];
      assert PrependAll(groups, Groups(u0)) == Groups(u0) by {
        if Groups(u0).Ok? {
          assert groups + Groups(u0).value == Groups(u0).value;
        }
      }
      while true
        invariant Groups(u0) == PrependAll(groups, Groups(piic.Upcoming()))
        decreases |piic.Upcoming()|
      {
        ghost var u := piic.Upcoming();
        var h, p := PeekHead();
        if h.Err? {
          return Err(h.error);
        }
        if h.value.None? {
          assert groups + [] == groups;
          return Ok(groups);
        }
        var g := Call(p.value.fields["chunkid"]);
        if g.Err? {
          return Err(g.error);
        }
        PrependAllTwice(groups, [g.value], Groups(piic.Upcoming()));
        groups := groups + [g.value];
      }
    }
  }
}
