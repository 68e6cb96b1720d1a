// A detected PII entity: its fixed information (type, language, country,
// subtype), its `fields` dictionary (type name, value, chunk id and the
// optional docid/detector/process/extra) and its position in the chunk.
// Building, equality, the dictionary form and its inverse, and the
// processing-stage history.

module PiiEntities {
  import opened Values
  import opened PiiEnums

  /** The fixed fields of an entity. A field given as None is Null. */
  datatype PiiEntityInfo = PiiEntityInfo(pii: PiiEnum, lang: Value, country: Value, subtype: Value)

  /** Optional entries of `fields`, besides type, value and chunkid. */
  const FIELDS_OPTIONAL: seq<string> := ["docid", "detector", "process", "extra"]

  /** The entries every `fields` dictionary has. */
  predicate MainKey(k: string)
  {
    k == "type" || k == "value" || k == "chunkid"
  }

  /** The names in FIELDS_OPTIONAL. */
  predicate OptionalKey(k: string)
  {
    k == "docid" || k == "detector" || k == "process" || k == "extra"
  }

  /** The optional fields of PiiEntityInfo. */
  predicate InfoKey(k: string)
  {
    k == "lang" || k == "country" || k == "subtype"
  }

  lemma OptionalKeys()
    ensures forall k :: k in FIELDS_OPTIONAL <==> OptionalKey(k)
  {
  }

  /** Where a key of each group can and cannot be found. */
  lemma MainKeyPlace(k: string)
    requires MainKey(k)
    ensures !InfoKey(k) && !OptionalKey(k) && k != "start" && k != "end"
  {
  }

  lemma InfoKeyPlace(k: string)
    requires InfoKey(k)
    ensures !MainKey(k) && !OptionalKey(k) && k != "start" && k != "end"
  {
  }

  lemma OptionalKeyPlace(k: string)
    requires OptionalKey(k)
    ensures !MainKey(k) && !InfoKey(k) && k != "start" && k != "end" && k != "type"
  {
  }

  /** `filter_dict`: the dict without its None-valued entries. */
  function FilterDict(m: map<string, Value>): (r: map<string, Value>)
    ensures forall k :: k in r <==> k in m && !m[k].Null?
    ensures forall k :: k in r ==> r[k] == m[k]
  {
    map k | k in m && !m[k].Null? :: m[k]
  }

  /** `PiiEntityInfo.asdict`: the type name and the info fields that are set. */
  function InfoAsDict(info: PiiEntityInfo): (r: map<string, Value>)
    ensures "type" in r && r["type"] == Str(Name(info.pii))
    ensures "lang" in r <==> !info.lang.Null?
    ensures "country" in r <==> !info.country.Null?
    ensures "subtype" in r <==> !info.subtype.Null?
    ensures r.Keys <= {"type", "lang", "country", "subtype"}
    ensures "lang" in r ==> r["lang"] == info.lang
    ensures "country" in r ==> r["country"] == info.country
    ensures "subtype" in r ==> r["subtype"] == info.subtype
  {
    SetIf(SetIf(SetIf(map["type" := Str(Name(info.pii))], "lang", info.lang), "country", info.country), "subtype", info.subtype)
  }

  /** One entry of a dict that `filter_dict` will see: left out when None. */
  function SetIf(m: map<string, Value>, k: string, v: Value): map<string, Value>
  {
    if v.Null? then m else m[k := v]
  }

  /** The info's dict is `filter_dict` of all four entries. */
  lemma InfoAsDictFiltered(info: PiiEntityInfo)
    ensures InfoAsDict(info) == FilterDict(map["type" := Str(Name(info.pii)), "lang" := info.lang,
                                                "country" := info.country, "subtype" := info.subtype])
  {
  }

  /** The keys `asdict` of the info can have, one by one. */
  lemma InfoDictKey(info: PiiEntityInfo, k: string)
    requires k in InfoAsDict(info)
    ensures k == "type" || (k == "lang" && !info.lang.Null?) || (k == "country" && !info.country.Null?)
            || (k == "subtype" && !info.subtype.Null?)
  {
  }

  /** The entity as a value: what a `PiiEntity` object holds at one moment. */
  datatype Entity = Entity(info: PiiEntityInfo, fields: map<string, Value>, pos: Value)

  // ---------------------------------------------------------------------
  // Construction

  /** The fields every entity has. */
  function BaseFields(info: PiiEntityInfo, value: Value, chunk: Value): map<string, Value>
  {
    map["type" := Str(Name(info.pii)), "value" := value, "chunkid" := chunk]
  }

  /** The keyword arguments among `ks` that `__init__` stores: the ones
      given and not None. */
  function StoredArgs(kwargs: map<string, Value>, ks: seq<string>): (r: map<string, Value>)
    ensures forall k :: k in r <==> k in ks && k in kwargs && !kwargs[k].Null?
    ensures forall k :: k in r ==> r[k] == kwargs[k]
  {
    map k | k in ks && k in kwargs && !kwargs[k].Null? :: kwargs[k]
  }

  /** One more name in the loop over the optional fields. */
  lemma StoredArgsSnoc(base: map<string, Value>, kwargs: map<string, Value>, ks: seq<string>, k: string)
    ensures base + StoredArgs(kwargs, ks + [k]) ==
      if k in kwargs && !kwargs[k].Null? then (base + StoredArgs(kwargs, ks))[k := kwargs[k]] else base + StoredArgs(kwargs, ks)
  {
    if k in kwargs && !kwargs[k].Null? {
      assert StoredArgs(kwargs, ks + [k]) == StoredArgs(kwargs, ks)[k := kwargs[k]];
    } else {
      assert StoredArgs(kwargs, ks + [k]) == StoredArgs(kwargs, ks);
    }
  }

  /** The `fields` dictionary `__init__` builds. */
  function InitFields(info: PiiEntityInfo, value: Value, chunk: Value, kwargs: map<string, Value>): (r: map<string, Value>)
    ensures forall k :: k in r <==> MainKey(k) || (OptionalKey(k) && k in kwargs && !kwargs[k].Null?)
    ensures "type" in r && r["type"] == Str(Name(info.pii))
    ensures "value" in r && r["value"] == value
    ensures "chunkid" in r && r["chunkid"] == chunk
    ensures forall k :: OptionalKey(k) && k in kwargs && !kwargs[k].Null? ==> k in r && r[k] == kwargs[k]
  {
    OptionalKeys();
    BaseFields(info, value, chunk) + StoredArgs(kwargs, FIELDS_OPTIONAL)
  }

  /** The type argument of `build`: a member, or anything else, which is
      looked up by name. */
  datatype PType = Member(p: PiiEnum) | Named(name: Value)

  /** `PiiEnum[name]`: a known name gives its member; an unknown key is
      reported as InvArgException; an unhashable key is a TypeError. */
  function ResolveType(t: PType): (r: Result<PiiEnum>)
    ensures t.Member? ==> r == Ok(t.p)
    ensures t.Named? && t.name.Str? && OfName(t.name.s).Some? ==> r == Ok(OfName(t.name.s).value)
    ensures t.Named? && !(t.name.Str? && OfName(t.name.s).Some?) ==> r.Err?
    ensures r.Err? ==> r.error == InvArg || r.error == PyError(TypeError)
  {
    match t
    case Member(p) => Ok(p)
    case Named(v) =>
      match v
      case Str(s) => if OfName(s).Some? then Ok(OfName(s).value) else Err(InvArg)
      case List(_) => Err(PyError(TypeError))
      case Dict(_) => Err(PyError(TypeError))
      case _ => Err(InvArg)
  }

  /** `PiiEntity.build`. */
  function Build(t: PType, value: Value, chunk: Value, pos: Value,
                 lang: Value, country: Value, subtype: Value,
                 kwargs: map<string, Value>): (r: Result<Entity>)
    ensures r.Ok? <==> ResolveType(t).Ok?
    ensures r.Ok? ==> r.value.info == PiiEntityInfo(ResolveType(t).value, lang, country, subtype)
    ensures r.Ok? ==> r.value.fields == InitFields(r.value.info, value, chunk, kwargs)
    ensures r.Ok? ==> r.value.pos == pos
    ensures r.Err? ==> r == Err(ResolveType(t).error)
  {
    var p :- ResolveType(t);
    var info := PiiEntityInfo(p, lang, country, subtype);
    Ok(Entity(info, InitFields(info, value, chunk, kwargs), pos))
  }

  // ---------------------------------------------------------------------
  // Length, equality, dict form

  /** `len(v)` of a Python value. */
  function ValueLen(v: Value): (r: Result<nat>)
    ensures v.Str? ==> r == Ok(|v.s|)
    ensures v.List? ==> r == Ok(|v.items|)
    ensures v.Dict? ==> r == Ok(|v.fields|)
    ensures !(v.Str? || v.List? || v.Dict?) ==> r == Err(PyError(TypeError))
  {
    match v
    case Str(s) => Ok(|s|)
    case List(xs) => Ok(|xs|)
    case Dict(m) => Ok(|m|)
    case _ => Err(PyError(TypeError))
  }

  /** `len(entity)`: the length of its value. */
  function Len(e: Entity): (r: Result<nat>)
    ensures "value" in e.fields ==> r == ValueLen(e.fields["value"])
    ensures "value" !in e.fields ==> r == Err(PyError(KeyError))
  {
    if "value" in e.fields then ValueLen(e.fields["value"]) else Err(PyError(KeyError))
  }

  /** The entries that `__eq__` reads are there. Every entity has them, since
      construction stores them and nothing removes a field. */
  predicate Keyed(e: Entity)
  {
    "type" in e.fields && "value" in e.fields && "chunkid" in e.fields
  }

  /** `__eq__`: same type name, value, chunk id and position. */
  predicate Same(a: Entity, b: Entity)
    requires Keyed(a) && Keyed(b)
  {
    a.fields["type"] == b.fields["type"] && a.fields["value"] == b.fields["value"]
    && a.fields["chunkid"] == b.fields["chunkid"] && a.pos == b.pos
  }

  /** `pos + n`: ints and bools add, anything else is a TypeError. */
  function AddNat(pos: Value, n: nat): (r: Result<Value>)
    ensures pos.Int? ==> r == Ok(Int(pos.i + n))
    ensures pos.Bool? ==> r == Ok(Int((if pos.b then 1 else 0) + n))
    ensures !(pos.Int? || pos.Bool?) ==> r == Err(PyError(TypeError))
  {
    match pos
    case Int(i) => Ok(Int(i + n))
    case Bool(b) => Ok(Int((if b then 1 else 0) + n))
    case _ => Err(PyError(TypeError))
  }

  /** `asdict`: the info fields that are set, then `fields` (which win on a
      shared key), then `start` and `end`. */
  function AsDict(e: Entity): (r: Result<map<string, Value>>)
    ensures r.Ok? <==> Len(e).Ok? && AddNat(e.pos, Len(e).value).Ok?
    ensures r.Ok? ==> forall k :: k in r.value <==> k in InfoAsDict(e.info) || k in e.fields || k == "start" || k == "end"
    ensures r.Ok? ==> r.value["start"] == e.pos && r.value["end"] == AddNat(e.pos, Len(e).value).value
    ensures r.Ok? ==> forall k :: k in e.fields && k != "start" && k != "end" ==> r.value[k] == e.fields[k]
    ensures r.Ok? ==> forall k :: k in InfoAsDict(e.info) && k !in e.fields ==> r.value[k] == InfoAsDict(e.info)[k]
  {
    var n :- Len(e);
    var end :- AddNat(e.pos, n);
    Ok(WithBounds(InfoAsDict(e.info), e.fields, e.pos, end))
  }

  /** `{**info, **fields, "start": start, "end": end}`. */
  function WithBounds(info: map<string, Value>, fields: map<string, Value>, start: Value, end: Value): (r: map<string, Value>)
    ensures forall k :: k in r <==> k in info || k in fields || k == "start" || k == "end"
    ensures r["start"] == start && r["end"] == end
    ensures forall k :: k in fields && k != "start" && k != "end" ==> r[k] == fields[k]
    ensures forall k :: k in info && k !in fields && k != "start" && k != "end" ==> r[k] == info[k]
  {
    (info + fields)["start" := start]["end" := end]
  }

  /** An entry of `src` that `fromdict` passes on: present and truthy
      (`src.get(k)` filtered on truth, then `filter_dict`), else None. */
  function TruthyOr(src: map<string, Value>, k: string): (r: Value)
    ensures k in src && Truthy(src[k]) ==> r == src[k]
    ensures !(k in src && Truthy(src[k])) ==> r == Null
  {
    if k in src && Truthy(src[k]) then src[k] else Null
  }

  /** The optional entries `fromdict` passes on as keyword arguments. */
  function OptionalExtra(src: map<string, Value>): (r: map<string, Value>)
    ensures forall k :: k in r <==> OptionalKey(k) && k in src && Truthy(src[k])
    ensures forall k :: k in r ==> r[k] == src[k]
  {
    map k | k in src && OptionalKey(k) && Truthy(src[k]) :: src[k]
  }

  /** `fromdict`: the four main entries are required (InvArgException
      otherwise); the other known entries are passed on when truthy. */
  function FromDict(src: map<string, Value>): (r: Result<Entity>)
    ensures !("type" in src && "start" in src && "value" in src && "chunkid" in src) ==> r == Err(InvArg)
    ensures "type" in src && "start" in src && "value" in src && "chunkid" in src ==>
      r.Ok? == ResolveType(Named(src["type"])).Ok?
    ensures r.Ok? ==> Keyed(r.value) && r.value.pos == src["start"]
    ensures r.Ok? ==> r.value.fields["value"] == src["value"] && r.value.fields["chunkid"] == src["chunkid"]
    ensures r.Ok? ==> r.value.fields["type"] == Str(Name(r.value.info.pii))
    ensures r.Ok? ==> src["type"].Str? && OfName(src["type"].s) == Some(r.value.info.pii)
    ensures r.Ok? ==> r.value.info.lang == TruthyOr(src, "lang")
    ensures r.Ok? ==> r.value.info.country == TruthyOr(src, "country")
    ensures r.Ok? ==> r.value.info.subtype == TruthyOr(src, "subtype")
    ensures r.Ok? ==> forall k :: k in r.value.fields <==> MainKey(k) || (OptionalKey(k) && k in src && Truthy(src[k]))
    ensures r.Ok? ==> forall k :: OptionalKey(k) && k in src && Truthy(src[k]) ==> k in r.value.fields && r.value.fields[k] == src[k]
  {
    if !("type" in src && "start" in src && "value" in src && "chunkid" in src) then Err(InvArg)
    else
      Build(Named(src["type"]), src["value"], src["chunkid"], src["start"],
            TruthyOr(src, "lang"), TruthyOr(src, "country"), TruthyOr(src, "subtype"),
            OptionalExtra(src))
  }

  // ---------------------------------------------------------------------
  // Properties of equality and of the dict form

  /** Two built entities are equal exactly when type, value, chunk id and
      position agree: language, country, subtype and the optional fields do
      not take part. */
  lemma {:induction false} BuildSame(t1: PType, t2: PType, value1: Value, value2: Value, chunk1: Value, chunk2: Value,
                                     pos1: Value, pos2: Value, lang1: Value, lang2: Value, country1: Value, country2: Value,
                                     sub1: Value, sub2: Value, kw1: map<string, Value>, kw2: map<string, Value>)
    requires Build(t1, value1, chunk1, pos1, lang1, country1, sub1, kw1).Ok?
    requires Build(t2, value2, chunk2, pos2, lang2, country2, sub2, kw2).Ok?
    ensures var a := Build(t1, value1, chunk1, pos1, lang1, country1, sub1, kw1).value;
            var b := Build(t2, value2, chunk2, pos2, lang2, country2, sub2, kw2).value;
            Keyed(a) && Keyed(b) &&
            (Same(a, b) <==> ResolveType(t1) == ResolveType(t2) && value1 == value2 && chunk1 == chunk2 && pos1 == pos2)
  {
    var a := Build(t1, value1, chunk1, pos1, lang1, country1, sub1, kw1).value;
    var b := Build(t2, value2, chunk2, pos2, lang2, country2, sub2, kw2).value;
    if a.fields["type"] == b.fields["type"] {
      NameInjective(a.info.pii, b.info.pii);
    }
  }

  /** A dict in the form `asdict` produces: the known keys only, the four
      main entries plus a matching `end`, a member name as type, an int
      start, and truthy optional entries. */
  predicate EntityDict(d: map<string, Value>)
  {
    && (forall k :: k in d ==> MainKey(k) || k == "start" || k == "end" || InfoKey(k) || OptionalKey(k))
    && "type" in d && "start" in d && "end" in d && "value" in d && "chunkid" in d
    && d["type"].Str? && d["type"].s != ALIAS_NAME && OfName(d["type"].s).Some?
    && d["start"].Int?
    && ValueLen(d["value"]).Ok?
    && d["end"] == Int(d["start"].i + ValueLen(d["value"]).value)
    && forall k :: k in d && (InfoKey(k) || OptionalKey(k)) ==> Truthy(d[k])
  }

  /** The entity that `fromdict` makes of such a dict, described by its
      parts. */
  ghost predicate PartsOf(d: map<string, Value>, e: Entity)
    requires EntityDict(d)
  {
    && Str(Name(e.info.pii)) == d["type"]
    && e.info.lang == TruthyOr(d, "lang")
    && e.info.country == TruthyOr(d, "country")
    && e.info.subtype == TruthyOr(d, "subtype")
    && e.pos == d["start"]
    && (forall k :: k in e.fields <==> MainKey(k) || (OptionalKey(k) && k in d))
    && e.fields["type"] == d["type"] && e.fields["value"] == d["value"] && e.fields["chunkid"] == d["chunkid"]
    && (forall k :: OptionalKey(k) && k in d ==> e.fields[k] == d[k])
  }

  lemma PartsKeyIn(d: map<string, Value>, e: Entity, k: string)
    requires EntityDict(d) && PartsOf(d, e) && k in d
    ensures AsDict(e).Ok? && k in AsDict(e).value
  {
    if InfoKey(k) {
      InfoKeyPlace(k);
      assert k in InfoAsDict(e.info);
    } else if OptionalKey(k) {
      OptionalKeyPlace(k);
    }
  }

  lemma PartsKeyOut(d: map<string, Value>, e: Entity, k: string)
    requires EntityDict(d) && PartsOf(d, e)
    requires AsDict(e).Ok? && k in AsDict(e).value
    ensures k in d
  {
    if k in e.fields {
      assert MainKey(k) || (OptionalKey(k) && k in d);
    } else if k in InfoAsDict(e.info) {
      InfoDictKey(e.info, k);
    }
  }

  lemma PartsKeys(d: map<string, Value>, e: Entity)
    requires EntityDict(d) && PartsOf(d, e)
    ensures AsDict(e).Ok? && AsDict(e).value.Keys == d.Keys
  {
    var r := AsDict(e).value;
    forall k | k in d ensures k in r {
      PartsKeyIn(d, e, k);
    }
    forall k | k in r ensures k in d {
      PartsKeyOut(d, e, k);
    }
  }

  lemma PartsFieldAt(d: map<string, Value>, e: Entity, k: string)
    requires EntityDict(d) && PartsOf(d, e)
    requires k in d && k in e.fields && k != "start" && k != "end"
    ensures AsDict(e).Ok? && k in AsDict(e).value && AsDict(e).value[k] == d[k]
  {
    if MainKey(k) {
      MainKeyPlace(k);
    } else {
      OptionalKeyPlace(k);
    }
  }

  lemma PartsInfoAt(d: map<string, Value>, e: Entity, k: string)
    requires EntityDict(d) && PartsOf(d, e)
    requires k in d && k !in e.fields && k != "start" && k != "end"
    ensures AsDict(e).Ok? && k in AsDict(e).value && AsDict(e).value[k] == d[k]
  {
    if MainKey(k) {
      MainKeyPlace(k);
    } else if OptionalKey(k) {
      OptionalKeyPlace(k);
    } else {
      assert InfoKey(k);
      InfoKeyPlace(k);
      assert k in InfoAsDict(e.info);
    }
  }

  lemma PartsBoundsAt(d: map<string, Value>, e: Entity)
    requires EntityDict(d) && PartsOf(d, e)
    ensures AsDict(e).Ok? && AsDict(e).value["start"] == d["start"] && AsDict(e).value["end"] == d["end"]
  {
    assert "value" in e.fields && e.fields["value"] == d["value"];
    BoundsOf(e, d["start"].i, d["value"]);
  }

  /** The bounds `asdict` writes for an entity at an integer position. */
  lemma BoundsOf(e: Entity, start: int, value: Value)
    requires e.pos == Int(start) && "value" in e.fields && e.fields["value"] == value && ValueLen(value).Ok?
    ensures AsDict(e).Ok? && AsDict(e).value["start"] == Int(start)
    ensures AsDict(e).value["end"] == Int(start + ValueLen(value).value)
  {
  }

  lemma PartsValues(d: map<string, Value>, e: Entity)
    requires EntityDict(d) && PartsOf(d, e)
    ensures AsDict(e).Ok? && forall k :: k in d && k in AsDict(e).value ==> AsDict(e).value[k] == d[k]
  {
    PartsBoundsAt(d, e);
    forall k | k in d && k in AsDict(e).value ensures AsDict(e).value[k] == d[k] {
      if k == "start" || k == "end" {
      } else if k in e.fields {
        PartsFieldAt(d, e, k);
      } else {
        PartsInfoAt(d, e, k);
      }
    }
  }

  lemma {:induction false} AsDictOfParts(d: map<string, Value>, e: Entity)
    requires EntityDict(d) && PartsOf(d, e)
    ensures AsDict(e) == Ok(d)
  {
    PartsKeys(d, e);
    PartsValues(d, e);
    var r := AsDict(e).value;
    assert r == d;
  }

  /** Reading such a dict and writing it back gives the same dict. */
  lemma {:induction false} AsDictFromDict(d: map<string, Value>)
    requires EntityDict(d)
    ensures FromDict(d).Ok?
    ensures AsDict(FromDict(d).value) == Ok(d)
  {
    var e := FromDict(d).value;
    assert Name(e.info.pii) == d["type"].s by {
      NameInjective(e.info.pii, OfName(d["type"].s).value);
    }
    AsDictOfParts(d, e);
  }

  /** An entity in the form `build` gives it, with every optional entry
      that is set truthy: this is what the dict form keeps. */
  predicate BuiltForm(e: Entity)
  {
    && Keyed(e)
    && e.fields["type"] == Str(Name(e.info.pii))
    && e.pos.Int?
    && ValueLen(e.fields["value"]).Ok?
    && (forall k :: k in e.fields ==> MainKey(k) || OptionalKey(k))
    && (forall k :: k in e.fields && OptionalKey(k) ==> Truthy(e.fields[k]))
    && (e.info.lang.Null? || Truthy(e.info.lang))
    && (e.info.country.Null? || Truthy(e.info.country))
    && (e.info.subtype.Null? || Truthy(e.info.subtype))
  }

  /** `build` gives that form when the optional arguments are None or
      truthy. */
  lemma BuildForm(p: PiiEnum, value: Value, chunk: Value, pos: int,
                  lang: Value, country: Value, subtype: Value, kwargs: map<string, Value>)
    requires ValueLen(value).Ok?
    requires lang.Null? || Truthy(lang)
    requires country.Null? || Truthy(country)
    requires subtype.Null? || Truthy(subtype)
    requires forall k :: k in kwargs && OptionalKey(k) ==> kwargs[k].Null? || Truthy(kwargs[k])
    ensures Build(Member(p), value, chunk, Int(pos), lang, country, subtype, kwargs).Ok?
    ensures BuiltForm(Build(Member(p), value, chunk, Int(pos), lang, country, subtype, kwargs).value)
  {
    var e := Build(Member(p), value, chunk, Int(pos), lang, country, subtype, kwargs).value;
    forall k | k in e.fields && OptionalKey(k) ensures Truthy(e.fields[k]) {
      OptionalKeyPlace(k);
    }
  }

  /** The dict form of an entity, described entry by entry. */
  ghost predicate DictOf(d: map<string, Value>, e: Entity)
    requires Keyed(e)
  {
    && "type" in d && "start" in d && "value" in d && "chunkid" in d
    && d["type"] == e.fields["type"] && d["start"] == e.pos
    && d["value"] == e.fields["value"] && d["chunkid"] == e.fields["chunkid"]
    && ("lang" in d <==> !e.info.lang.Null?) && ("lang" in d ==> d["lang"] == e.info.lang)
    && ("country" in d <==> !e.info.country.Null?) && ("country" in d ==> d["country"] == e.info.country)
    && ("subtype" in d <==> !e.info.subtype.Null?) && ("subtype" in d ==> d["subtype"] == e.info.subtype)
    && (forall k :: OptionalKey(k) ==> (k in d <==> k in e.fields))
    && (forall k :: OptionalKey(k) && k in d ==> d[k] == e.fields[k])
  }

  lemma DictMain(e: Entity)
    requires BuiltForm(e)
    ensures AsDict(e).Ok?
    ensures var d := AsDict(e).value;
      && "type" in d && "start" in d && "value" in d && "chunkid" in d
      && d["type"] == e.fields["type"] && d["start"] == e.pos
      && d["value"] == e.fields["value"] && d["chunkid"] == e.fields["chunkid"]
  {
  }

  lemma DictInfoAt(e: Entity, k: string, v: Value)
    requires BuiltForm(e) && InfoKey(k)
    requires v == if k == "lang" then e.info.lang else if k == "country" then e.info.country else e.info.subtype
    ensures AsDict(e).Ok?
    ensures k in AsDict(e).value <==> !v.Null?
    ensures k in AsDict(e).value ==> AsDict(e).value[k] == v
  {
    InfoKeyPlace(k);
  }

  lemma DictInfo(e: Entity)
    requires BuiltForm(e)
    ensures AsDict(e).Ok?
    ensures var d := AsDict(e).value;
      && ("lang" in d <==> !e.info.lang.Null?) && ("lang" in d ==> d["lang"] == e.info.lang)
      && ("country" in d <==> !e.info.country.Null?) && ("country" in d ==> d["country"] == e.info.country)
      && ("subtype" in d <==> !e.info.subtype.Null?) && ("subtype" in d ==> d["subtype"] == e.info.subtype)
  {
    DictInfoAt(e, "lang", e.info.lang);
    DictInfoAt(e, "country", e.info.country);
    DictInfoAt(e, "subtype", e.info.subtype);
  }

  lemma DictOptionalKey(e: Entity, k: string)
    requires BuiltForm(e) && OptionalKey(k)
    ensures AsDict(e).Ok?
    ensures k in AsDict(e).value <==> k in e.fields
  {
    OptionalKeyPlace(k);
    assert k !in InfoAsDict(e.info);
  }

  lemma DictOptionalValue(e: Entity, k: string)
    requires BuiltForm(e) && OptionalKey(k) && k in e.fields
    ensures AsDict(e).Ok? && k in AsDict(e).value
    ensures AsDict(e).value[k] == e.fields[k]
  {
    OptionalKeyPlace(k);
  }

  lemma DictOfBuilt(e: Entity)
    requires BuiltForm(e)
    ensures AsDict(e).Ok? && DictOf(AsDict(e).value, e)
  {
    DictMain(e);
    DictInfo(e);
    forall k | OptionalKey(k) ensures k in AsDict(e).value <==> k in e.fields {
      DictOptionalKey(e, k);
    }
    forall k | OptionalKey(k) && k in AsDict(e).value ensures AsDict(e).value[k] == e.fields[k] {
      DictOptionalKey(e, k);
      DictOptionalValue(e, k);
    }
  }

  lemma RoundInfo(d: map<string, Value>, e: Entity)
    requires BuiltForm(e) && DictOf(d, e)
    ensures FromDict(d).Ok? && FromDict(d).value.info == e.info && FromDict(d).value.pos == e.pos
  {
    OfNameRoundTrip(e.info.pii);
  }

  lemma RoundFieldAt(d: map<string, Value>, e: Entity, k: string)
    requires BuiltForm(e) && DictOf(d, e) && FromDict(d).Ok?
    ensures k in FromDict(d).value.fields <==> k in e.fields
    ensures k in e.fields ==> FromDict(d).value.fields[k] == e.fields[k]
  {
    if MainKey(k) {
      MainKeyPlace(k);
    } else if OptionalKey(k) {
      OptionalKeyPlace(k);
    }
  }

  lemma RoundFields(d: map<string, Value>, e: Entity)
    requires BuiltForm(e) && DictOf(d, e) && FromDict(d).Ok?
    ensures FromDict(d).value.fields == e.fields
  {
    var f := FromDict(d).value.fields;
    forall k ensures k in f <==> k in e.fields {
      RoundFieldAt(d, e, k);
    }
    forall k | k in f ensures f[k] == e.fields[k] {
      RoundFieldAt(d, e, k);
    }
  }

  /** An entity in that form survives the dict form unchanged. */
  lemma {:induction false} FromDictAsDict(e: Entity)
    requires BuiltForm(e)
    ensures AsDict(e).Ok?
    ensures FromDict(AsDict(e).value) == Ok(e)
  {
    DictOfBuilt(e);
    var d := AsDict(e).value;
    RoundInfo(d, e);
    RoundFields(d, e);
  }

  // ---------------------------------------------------------------------
  // Processing stages

  /** A stage entry `{"stage": stage, **data}`. */
  function StageRecord(stage: string, data: map<string, Value>): (r: map<string, Value>)
    ensures r.Keys == data.Keys + {"stage"}
    ensures forall k :: k in data ==> r[k] == data[k]
    ensures "stage" !in data ==> r["stage"] == Str(stage)
  {
    map["stage" := Str(stage)] + data
  }

  /** The `fields` after `add_process_stage(stage, **data)`. The first stage
      is stored as is; a later one moves the current stage, without its own
      history, to the end of the history list. A `process` entry that is not
      a dict, or whose history is not a list, raises. */
  function ProcessStage(fields: map<string, Value>, stage: string, data: map<string, Value>): (r: Result<map<string, Value>>)
    ensures "process" !in fields ==> r == Ok(fields["process" := Dict(StageRecord(stage, data))])
    ensures r.Ok? ==> r.value.Keys == fields.Keys + {"process"}
    ensures r.Ok? ==> forall k :: k in fields && k != "process" ==> r.value[k] == fields[k]
    ensures r.Ok? && "process" in fields ==>
      && fields["process"].Dict?
      && var old_ := fields["process"].fields;
         var h := Get(old_, "history", List([]));
         && h.List?
         && r.value["process"] == Dict(StageRecord(stage, data)["history" := List(h.items + [Dict(old_ - {"history"})])])
    ensures "process" in fields && !fields["process"].Dict? ==> r.Err?
  {
    if "process" !in fields then Ok(fields["process" := Dict(StageRecord(stage, data))])
    else
      match fields["process"]
      case Dict(m) =>
        var h := Get(m, "history", List([]));
        if h.List? then
          Ok(fields["process" := Dict(StageRecord(stage, data)["history" := List(h.items + [Dict(m - {"history"})])])])
        else Err(PyError(AttributeError))
      case List(_) => Err(PyError(TypeError))
      case _ => Err(PyError(AttributeError))
  }

  /** What a failing `add_process_stage` leaves behind: the history has
      already been popped from a dict `process` entry. */
  function StageFailed(fields: map<string, Value>): (r: map<string, Value>)
    ensures r.Keys == fields.Keys
    ensures forall k :: k in fields && k != "process" ==> r[k] == fields[k]
  {
    if "process" in fields && fields["process"].Dict? then
      fields["process" := Dict(fields["process"].fields - {"history"})]
    else fields
  }

  /** A run of stages, applied in order. */
  function Stages(fields: map<string, Value>, stages: seq<(string, map<string, Value>)>): (r: Result<map<string, Value>>)
    ensures |stages| == 0 ==> r == Ok(fields)
    ensures r.Ok? && |stages| > 0 ==> r.value.Keys == fields.Keys + {"process"}
    ensures r.Ok? ==> forall k :: k in fields && k != "process" ==> r.value[k] == fields[k]
  {
    if |stages| == 0 then Ok(fields)
    else
      var prev :- Stages(fields, stages[..|stages| - 1]);
      ProcessStage(prev, stages[|stages| - 1].0, stages[|stages| - 1].1)
  }

  function Records(stages: seq<(string, map<string, Value>)>): (r: seq<Value>)
    ensures |r| == |stages|
  {
    if |stages| == 0 then [] else Records(stages[..|stages| - 1]) + [Dict(StageRecord(stages[|stages| - 1].0, stages[|stages| - 1].1))]
  }

  /** The stage data the keyword arguments can carry: never `stage` (it is
      the positional parameter) and, for the history to stay intact, no
      `history` either. */
  predicate PlainStages(stages: seq<(string, map<string, Value>)>)
  {
    forall j :: 0 <= j < |stages| ==> "stage" !in stages[j].1 && "history" !in stages[j].1
  }

  /** Taking the history out of a stage entry that did not have one of its
      own, with or without the history a later stage gave it. */
  lemma PopHistory(rec: map<string, Value>, h: Option<Value>)
    requires "history" !in rec
    ensures h.None? ==> rec - {"history"} == rec
    ensures h.Some? ==> rec["history" := h.value] - {"history"} == rec
  {
  }

  /** After stages s1..sn on an entity with no process yet, the current
      stage is sn and the history lists s1..s(n-1) in order. */
  lemma {:induction false} StagesHistory(fields: map<string, Value>, stages: seq<(string, map<string, Value>)>)
    requires "process" !in fields
    requires |stages| >= 1 && PlainStages(stages)
    ensures Stages(fields, stages).Ok?
    ensures var r := Stages(fields, stages).value;
            var last := StageRecord(stages[|stages| - 1].0, stages[|stages| - 1].1);
            && r.Keys == fields.Keys + {"process"}
            && (forall k :: k in fields ==> r[k] == fields[k])
            && r["process"] == Dict(if |stages| == 1 then last else last["history" := List(Records(stages[..|stages| - 1]))])
  {
    var n := |stages|;
    var pre := stages[..n - 1];
    if n > 1 {
      assert PlainStages(pre) by {
        forall j | 0 <= j < |pre| ensures "stage" !in pre[j].1 && "history" !in pre[j].1 {
          assert pre[j] == stages[j];
        }
      }
      StagesHistory(fields, pre);
      var prev := Stages(fields, pre).value;
      var plast := StageRecord(pre[n - 2].0, pre[n - 2].1);
      assert pre[n - 2] == stages[n - 2];
      var m := prev["process"].fields;
      assert "history" !in stages[n - 2].1;
      if n == 2 {
        PopHistory(plast, None);
        assert Records(pre) == [Dict(plast)];
      } else {
        PopHistory(plast, Some(List(Records(pre[..n - 2]))));
        assert Records(pre) == Records(pre[..n - 2]) + [Dict(plast)];
      }
    }
  }

  // ---------------------------------------------------------------------
  // The entity object

  class PiiEntity {
    const info: PiiEntityInfo
    var fields: map<string, Value>
    const pos: Value

    function State(): Entity
      reads this
    {
      Entity(info, fields, pos)
    }

    /** `__init__`: the compulsory fields, then the optional arguments that
        are given and not None, one by one. */
    constructor (info: PiiEntityInfo, value: Value, chunk: Value, pos: Value, kwargs: map<string, Value>)
      ensures State() == Entity(info, InitFields(info, value, chunk, kwargs), pos)
    {
      this.info := info;
      this.pos := pos;
      fields := BaseFields(info, value, chunk);
      new;
      var i := 0;
      while i < |FIELDS_OPTIONAL|
        invariant 0 <= i <= |FIELDS_OPTIONAL|
        invariant fields == BaseFields(info, value, chunk) + StoredArgs(kwargs, FIELDS_OPTIONAL[..i])
      {
        var k := FIELDS_OPTIONAL[i];
        assert FIELDS_OPTIONAL[..i + 1] == FIELDS_OPTIONAL[..i] + [k];
        StoredArgsSnoc(BaseFields(info, value, chunk), kwargs, FIELDS_OPTIONAL[..i], k);
        if k in kwargs && !kwargs[k].Null? {
          fields := fields[k := kwargs[k]];
        }
        i := i + 1;
      }
      assert FIELDS_OPTIONAL[..i] == FIELDS_OPTIONAL;
    }

    /** `add_field`: sets one entry, keeping the others. */
    method AddField(name: string, value: Value)
      modifies this
      ensures fields == old(fields)[name := value]
    {
      fields := fields[name := value];
    }

    /** `add_process_stage`. */
    method AddProcessStage(stage: string, data: map<string, Value>) returns (r: Result<()>)
      requires "stage" !in data
      modifies this
      ensures r.Ok? <==> ProcessStage(old(fields), stage, data).Ok?
      ensures r.Ok? ==> fields == ProcessStage(old(fields), stage, data).value
      ensures r.Err? ==> r == Err(ProcessStage(old(fields), stage, data).error) && fields == StageFailed(old(fields))
    {
      if "process" !in fields {
        fields := fields["process" := Dict(StageRecord(stage, data))];
        return Ok(());
      }
      var process := fields["process"];
      if process.List? {
        return Err(PyError(TypeError));
      }
      if !process.Dict? {
        return Err(PyError(AttributeError));
      }
      var history := Get(process.fields, "history", List([]));
      fields := fields["process" := Dict(process.fields - {"history"})];
      if !history.List? {
        return Err(PyError(AttributeError));
      }
      var popped := fields["process"];
      fields := fields["process" := Dict(StageRecord(stage, data)["history" := List(history.items + [popped])])];
      return Ok(());
    }
  }
}
