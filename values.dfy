// Python value model shared by every module: the dynamic values the library
// passes around (parsed JSON/YAML, chunk payloads, metadata dicts), Python's
// truthiness, `str()` of the scalar values, and the library's exceptions.

module Values {

  /** A Python value as it appears in parsed JSON/YAML data. Dicts are maps:
      their key order is not part of the model. */
  datatype Value =
    | Null
    | Bool(b: bool)
    | Int(i: int)
    | Str(s: string)
    | List(items: seq<Value>)
    | Dict(fields: map<string, Value>)

  /** Python runtime errors that the source raises implicitly. */
  datatype PyErrorKind = KeyError | TypeError | IndexError | AttributeError | ValueError | StopIteration

  /** The library's exception classes, plus the implicit Python ones. */
  datatype Error =
    | InvArg
    | Proc
    | InvalidDocument
    | FileError
    | Unimplemented
    | Config
    | PyError(kind: PyErrorKind)

  datatype Option<T> = None | Some(value: T)

  datatype Result<T> = Ok(value: T) | Err(error: Error)
  {
    predicate IsFailure() { Err? }
    function PropagateFailure<U>(): Result<U> requires Err? { Err(error) }
    function Extract(): T requires Ok? { value }
  }

  /** Python truthiness: None, False, 0 and empty containers are false. */
  predicate Truthy(v: Value)
  {
    match v
    case Null => false
    case Bool(b) => b
    case Int(i) => i != 0
    case Str(s) => |s| > 0
    case List(xs) => |xs| > 0
    case Dict(m) => |m| > 0
  }

  /** `d.get(k, default)` on a dict. */
  function Get(m: map<string, Value>, k: string, default: Value): (r: Value)
    ensures k in m ==> r == m[k]
    ensures k !in m ==> r == default
  {
    if k in m then m[k] else default
  }

  /** `x.get(k, default)` on an arbitrary value: only dicts have `get`. */
  function GetAttr(v: Value, k: string, default: Value): (r: Result<Value>)
    ensures r.Ok? <==> v.Dict?
    ensures v.Dict? && k in v.fields ==> r == Ok(v.fields[k])
    ensures v.Dict? && k !in v.fields ==> r == Ok(default)
  {
    if v.Dict? then Ok(Get(v.fields, k, default)) else Err(PyError(AttributeError))
  }

  /** `d[k] = x`: item assignment with a string key works on dicts only. */
  function SetItem(ctx: Value, k: string, x: Value): (r: Result<Value>)
    ensures r.Ok? <==> ctx.Dict?
    ensures r.Ok? ==> r.value == Dict(ctx.fields[k := x])
  {
    if ctx.Dict? then Ok(Dict(ctx.fields[k := x])) else Err(PyError(TypeError))
  }

  /** `a.update(b)` for dicts: keys of `b` win, other keys of `a` stay. */
  function Update(a: map<string, Value>, b: map<string, Value>): (r: map<string, Value>)
    ensures r.Keys == a.Keys + b.Keys
    ensures forall k :: k in b ==> r[k] == b[k]
    ensures forall k :: k in a && k !in b ==> r[k] == a[k]
  {
    a + b
  }

  /** An element `dict.update` can take as a key/value pair: a two-element
      list with a string key, or a two-character string (its characters are
      the key and the value). */
  predicate IsPair(p: Value)
  {
    (p.List? && |p.items| == 2 && p.items[0].Str?) || (p.Str? && |p.s| == 2)
  }

  function PairKey(p: Value): string
    requires IsPair(p)
  {
    if p.List? then p.items[0].s else [p.s[0]]
  }

  function PairValue(p: Value): Value
    requires IsPair(p)
  {
    if p.List? then p.items[1] else Str([p.s[1]])
  }

  /** Storing one element of the iterable `dict.update` walks: a pair sets
      its key; an element of another length is a ValueError; an element that
      cannot be iterated, or a pair whose key is a list or a dict, is a
      TypeError. */
  function SetPair(a: map<string, Value>, p: Value): (r: Result<map<string, Value>>)
    ensures r.Ok? <==> IsPair(p)
    ensures r.Ok? ==> r.value == a[PairKey(p) := PairValue(p)]
    ensures r.Err? && (p.List? || p.Str? || p.Dict?) ==>
      r.error == (if (p.List? && |p.items| == 2) || (p.Dict? && |p.fields| == 2) then PyError(TypeError) else PyError(ValueError))
    ensures r.Err? && !(p.List? || p.Str? || p.Dict?) ==> r.error == PyError(TypeError)
  {
    match p
    case List(kv) => if |kv| != 2 then Err(PyError(ValueError)) else if kv[0].Str? then Ok(a[kv[0].s := kv[1]]) else Err(PyError(TypeError))
    case Str(s) => if |s| != 2 then Err(PyError(ValueError)) else Ok(a[[s[0]] := Str([s[1]])])
    case Dict(m) => if |m| != 2 then Err(PyError(ValueError)) else Err(PyError(TypeError))
    case _ => Err(PyError(TypeError))
  }

  /** The pairs of an iterable, one after the other: the first element that
      is not a pair stops the walk. */
  function UpdatePairs(a: map<string, Value>, xs: seq<Value>): (r: Result<map<string, Value>>)
    decreases |xs|
  {
    if |xs| == 0 then Ok(a)
    else
      var a1 :- SetPair(a, xs[0]);
      UpdatePairs(a1, xs[1..])
  }

  /** The dict a list of pairs builds on its own: a later pair wins. */
  function PairsDict(xs: seq<Value>): (m: map<string, Value>)
    requires forall k :: 0 <= k < |xs| ==> IsPair(xs[k])
    decreases |xs|
  {
    if |xs| == 0 then map[] else PairsDict(xs[..|xs| - 1])[PairKey(xs[|xs| - 1]) := PairValue(xs[|xs| - 1])]
  }

  /** Walking pairs into `a` is updating `a` with the dict the pairs build;
      the walk fails exactly when some element is not a pair, with that
      element's error when it is the first such. */
  lemma UpdatePairsSpec(a: map<string, Value>, xs: seq<Value>)
    ensures UpdatePairs(a, xs).Ok? <==> forall k :: 0 <= k < |xs| ==> IsPair(xs[k])
    ensures UpdatePairs(a, xs).Ok? ==> UpdatePairs(a, xs).value == Update(a, PairsDict(xs))
  {
    UpdatePairsOk(a, xs);
    if UpdatePairs(a, xs).Ok? {
      UpdatePairsValue(a, xs);
    }
  }

  /** The walk succeeds exactly when every element is a pair. */
  lemma {:induction false} UpdatePairsOk(a: map<string, Value>, xs: seq<Value>)
    ensures UpdatePairs(a, xs).Ok? <==> forall k :: 0 <= k < |xs| ==> IsPair(xs[k])
    decreases |xs|
  {
    if |xs| > 0 {
      var rest := xs[1..];
      assert forall k :: 0 <= k < |rest| ==> rest[k] == xs[k + 1];
      if IsPair(xs[0]) {
        UpdatePairsOk(a[PairKey(xs[0]) := PairValue(xs[0])], rest);
      }
    }
  }

  /** A walk over pairs only updates `a` with the dict they build. */
  lemma {:induction false} UpdatePairsValue(a: map<string, Value>, xs: seq<Value>)
    requires forall k :: 0 <= k < |xs| ==> IsPair(xs[k])
    ensures UpdatePairs(a, xs) == Ok(Update(a, PairsDict(xs)))
    decreases |xs|
  {
    if |xs| > 0 {
      var rest := xs[1..];
      PairsDictCons(xs);
      var a1 := a[PairKey(xs[0]) := PairValue(xs[0])];
      assert SetPair(a, xs[0]) == Ok(a1);
      assert UpdatePairs(a, xs) == UpdatePairs(a1, rest);
      UpdatePairsValue(a1, rest);
      UpdateAfterSet(a, PairKey(xs[0]), PairValue(xs[0]), PairsDict(rest));
    } else {
      assert a + map[] == a;
    }
  }

  /** Setting a key and then updating is updating with that key in front. */
  lemma UpdateAfterSet(a: map<string, Value>, k: string, v: Value, b: map<string, Value>)
    ensures Update(a[k := v], b) == Update(a, map[k := v] + b)
  {
    assert a[k := v] + b == a + (map[k := v] + b);
  }

  /** Building the dict of a list of pairs from its first pair on. */
  lemma {:induction false} PairsDictCons(xs: seq<Value>)
    requires |xs| > 0 && forall k :: 0 <= k < |xs| ==> IsPair(xs[k])
    ensures forall k :: 0 <= k < |xs| - 1 ==> IsPair(xs[1..][k])
    ensures PairsDict(xs) == map[PairKey(xs[0]) := PairValue(xs[0])] + PairsDict(xs[1..])
    decreases |xs|
  {
    assert forall k :: 0 <= k < |xs| - 1 ==> xs[1..][k] == xs[k + 1];
    if |xs| > 1 {
      var init := xs[..|xs| - 1];
      assert init[1..] == xs[1..][..|xs| - 2];
      assert init[0] == xs[0];
      PairsDictCons(init);
    }
  }

  /** `a.update(x)` for any value `x`: a dict's keys win. Anything else is
      iterated for key/value pairs: an empty string or list changes nothing;
      a non-empty string yields one-character strings, which are not pairs
      (ValueError); a scalar cannot be iterated (TypeError). */
  function UpdateFrom(a: map<string, Value>, x: Value): (r: Result<map<string, Value>>)
    ensures x.Dict? ==> r == Ok(Update(a, x.fields))
    ensures (x.Str? || x.List?) && !Truthy(x) ==> r == Ok(a)
    ensures x.Str? && Truthy(x) ==> r == Err(PyError(ValueError))
    ensures x.Null? || x.Bool? || x.Int? ==> r == Err(PyError(TypeError))
    ensures x.List? ==> r == UpdatePairs(a, x.items)
  {
    match x
    case Dict(m) => Ok(Update(a, m))
    case List(xs) => UpdatePairs(a, xs)
    case Str(s) => if |s| == 0 then Ok(a) else Err(PyError(ValueError))
    case _ => Err(PyError(TypeError))
  }

  /** The values `dict.update` accepts. */
  predicate Updatable(x: Value)
  {
    x.Dict? || (x.Str? && |x.s| == 0) || (x.List? && forall k :: 0 <= k < |x.items| ==> IsPair(x.items[k]))
  }

  /** `update` succeeds exactly on the values it accepts, and never loses a
      key. */
  lemma UpdateFromAccepts(a: map<string, Value>, x: Value)
    ensures UpdateFrom(a, x).Ok? <==> Updatable(x)
    ensures UpdateFrom(a, x).Ok? ==> a.Keys <= UpdateFrom(a, x).value.Keys
  {
    if x.List? {
      UpdatePairsSpec(a, x.items);
    }
  }

  /** Iterating a value that is used as a list of child chunks (the
      `chunk.get("chunks", [])` loops): a list gives its items; iterating a
      non-empty string or dict yields strings, on which the recursive step then
      fails with AttributeError; a scalar is not iterable. */
  function Children(v: Value): (r: Result<seq<Value>>)
    ensures v.List? ==> r == Ok(v.items)
    ensures r.Ok? ==> (v.List? && r.value == v.items) || (!Truthy(v) && (v.Str? || v.Dict?) && r.value == [])
  {
    match v
    case List(xs) => Ok(xs)
    case Str(s) => if |s| == 0 then Ok([]) else Err(PyError(AttributeError))
    case Dict(m) => if |m| == 0 then Ok([]) else Err(PyError(AttributeError))
    case _ => Err(PyError(TypeError))
  }

  // ---------------------------------------------------------------------
  // str() of scalar values

  function DigitChar(d: nat): (c: char)
    requires d < 10
    ensures '0' <= c <= '9'
  {
    "0123456789"[d]
  }

  function DigitValue(c: char): (d: nat)
    requires '0' <= c <= '9'
    ensures d < 10
  {
    (c as int - '0' as int) as nat
  }

  predicate IsDigits(s: string)
  {
    forall k :: 0 <= k < |s| ==> '0' <= s[k] <= '9'
  }

  /** Decimal rendering of a natural number, as `str(n)` gives it. */
  function NatToString(n: nat): (s: string)
    ensures |s| > 0 && IsDigits(s)
    ensures |s| > 1 ==> s[0] != '0'
  {
    if n < 10 then [DigitChar(n)] else NatToString(n / 10) + [DigitChar(n % 10)]
  }

  /** Reading back a string of decimal digits. */
  function ParseNat(s: string): (n: nat)
    requires IsDigits(s)
  {
    if |s| == 0 then 0 else 10 * ParseNat(s[..|s| - 1]) + DigitValue(s[|s| - 1])
  }

  lemma {:induction false} ParseNatToString(n: nat)
    ensures ParseNat(NatToString(n)) == n
  {
    if n >= 10 {
      var s := NatToString(n);
      assert s[..|s| - 1] == NatToString(n / 10);
      ParseNatToString(n / 10);
    } else {
      assert DigitValue(DigitChar(n)) == n;
    }
  }

  /** `str(i)` of a Python int. */
  function IntToString(i: int): (s: string)
    ensures |s| > 0
    ensures i < 0 <==> s[0] == '-'
  {
    if i < 0 then "-" + NatToString(-i) else NatToString(i)
  }

  /** One is written "1". */
  lemma OneToString()
    ensures IntToString(1) == "1"
  {
    assert DigitChar(1) == '1';
  }

  lemma {:induction false} NatToStringInjective(m: nat, n: nat)
    requires NatToString(m) == NatToString(n)
    ensures m == n
  {
    ParseNatToString(m);
    ParseNatToString(n);
  }

  lemma {:induction false} IntToStringInjective(i: int, j: int)
    requires IntToString(i) == IntToString(j)
    ensures i == j
  {
    if i < 0 {
      assert j < 0;
      NegativeDigits(i);
      NegativeDigits(j);
      NatToStringInjective(-i, -j);
    } else {
      assert j >= 0;
      NatToStringInjective(i, j);
    }
  }

  /** A negative number is written as a minus sign, then its magnitude. */
  lemma NegativeDigits(i: int)
    requires i < 0
    ensures IntToString(i)[1..] == NatToString(-i)
  {
    assert IntToString(i) == "-" + NatToString(-i);
  }

  /** `str(v)`. Containers have no rendering in this model: they get a fixed
      marker (chunk ids and chunk ids compared as strings are scalars). */
  function PyStr(v: Value): (s: string)
    ensures v.Str? ==> s == v.s
    ensures v.Int? ==> s == IntToString(v.i)
    ensures v.Null? ==> s == "None"
  {
    match v
    case Null => "None"
    case Bool(b) => if b then "True" else "False"
    case Int(i) => IntToString(i)
    case Str(s) => s
    case List(_) => "<list>"
    case Dict(_) => "<dict>"
  }

  // ---------------------------------------------------------------------
  // Strings

  /** ASCII lower-casing, the part of `str.lower()` this model covers. */
  function Lower(s: string): (r: string)
    ensures |r| == |s|
    ensures forall k :: 0 <= k < |s| ==> r[k] == if 'A' <= s[k] <= 'Z' then (s[k] as int + 32) as char else s[k]
  {
    if |s| == 0 then [] else
      [if 'A' <= s[0] <= 'Z' then (s[0] as int + 32) as char else s[0]] + Lower(s[1..])
  }

  predicate StartsWith(s: string, prefix: string)
  {
    |prefix| <= |s| && s[..|prefix|] == prefix
  }

  predicate EndsWith(s: string, suffix: string)
  {
    |suffix| <= |s| && s[|s| - |suffix|..] == suffix
  }

  /** Python's `t in s` for strings: `t` occurs in `s`. */
  predicate Contains(s: string, t: string)
    decreases |s|
  {
    StartsWith(s, t) || (|s| > 0 && Contains(s[1..], t))
  }

  /** `" " * n` */
  function Spaces(n: int): (r: string)
    ensures |r| == if n < 0 then 0 else n
    ensures forall k :: 0 <= k < |r| ==> r[k] == ' '
  {
    if n <= 0 then "" else " " + Spaces(n - 1)
  }

  /** A read-only view of each metadata section, as `{k: MappingProxyType(v)}`
      builds it. Views compare and read like the dicts they wrap. */
  function Views(meta: map<string, map<string, Value>>): (r: map<string, Value>)
    ensures r.Keys == meta.Keys
    ensures forall k :: k in meta ==> r[k] == Dict(meta[k])
  {
    map k | k in meta :: Dict(meta[k])
  }

  /** A list comprehension whose element expression may raise: the
      results in order, or the first failure. */
  function MapResult<A, B>(xs: seq<A>, f: A -> Result<B>): (r: Result<seq<B>>)
    ensures r.Ok? <==> forall j :: 0 <= j < |xs| ==> f(xs[j]).Ok?
    ensures r.Ok? ==> |r.value| == |xs| && forall j :: 0 <= j < |xs| ==> f(xs[j]) == Ok(r.value[j])
  {
    if |xs| == 0 then Ok([])
    else
      match f(xs[0])
      case Err(e) => Err(e)
      case Ok(y) =>
        var rest := MapResult(xs[1..], f);
        assert forall j :: 1 <= j < |xs| ==> xs[j] == xs[1..][j - 1];
        match rest
        case Err(e) => Err(e)
        case Ok(ys) => Ok([y] + ys)
  }

  /** The failure a comprehension reports is that of the first element
      that fails. */
  lemma {:induction false} MapResultFirstError<A, B>(xs: seq<A>, f: A -> Result<B>, i: nat)
    requires i < |xs| && f(xs[i]).Err?
    requires forall j :: 0 <= j < i ==> f(xs[j]).Ok?
    ensures MapResult(xs, f) == Err(f(xs[i]).error)
  {
    if i > 0 {
      assert forall j :: 0 <= j < i - 1 ==> xs[1..][j] == xs[j + 1];
      MapResultFirstError(xs[1..], f, i - 1);
    }
  }

  // -------------------------------------------------------------------
  // Sequence facts used step by step by the proofs

  /** A non-empty sequence is its front and its last element. */
  lemma SnocLast<T>(s: seq<T>)
    requires |s| > 0
    ensures s[..|s| - 1] + [s[|s| - 1]] == s
  {
  }

  /** A prefix one longer is the prefix and the next element. */
  lemma PrefixSnoc<T>(s: seq<T>, n: nat)
    requires n < |s|
    ensures s[..n + 1] == s[..n] + [s[n]]
  {
  }

  /** Appending a non-empty sequence is appending its front, then its last
      element. */
  lemma AppendSnoc<T>(a: seq<T>, b: seq<T>)
    requires |b| > 0
    ensures a + b == (a + b[..|b| - 1]) + [b[|b| - 1]]
  {
    assert b == b[..|b| - 1] + [b[|b| - 1]];
  }

  lemma ConcatAssoc<T>(a: seq<T>, b: seq<T>, c: seq<T>)
    ensures (a + b) + c == a + (b + c)
  {
  }

  /** The tail of a concatenation whose first part is not empty. */
  lemma AppendTail<T>(a: seq<T>, b: seq<T>)
    requires |a| > 0
    ensures |a + b| > 0 && (a + b)[0] == a[0] && (a + b)[1..] == a[1..] + b
  {
  }

  /** A non-empty sequence is its first element and its tail. */
  lemma ConsTail<T>(s: seq<T>)
    requires |s| > 0
    ensures [s[0]] + s[1..] == s
  {
  }
}
