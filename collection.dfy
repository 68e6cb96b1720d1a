// A collection of detected PII entities (types/piicollection/collection.py):
// the entities in order, a registry of the detectors that produced them
// (numbered 1, 2, ... in order of first appearance, with an index from
// detector id to number), per-collection default fields, and a header that
// records the processing stage.

module Collection {
  import opened Values
  import opened Defs
  import opened PiiEnums
  import opened PiiEntities

  // -------------------------------------------------------------------
  // Detectors

  /** `PiiDetector`: its id and the fields `asdict` returns. */
  datatype Detector = Detector(id: string, fields: map<string, Value>)

  /** The arguments the detector constructor takes. */
  predicate DetectorKey(k: string)
  {
    k == "source" || k == "name" || k == "version" || k == "url" || k == "method"
  }

  /** The constructor: id "source/name/version", the three compulsory
      fields, and url and method only when they are truthy. */
  function NewDetector(source: Value, name: Value, version: Value, url: Value, how: Value): (d: Detector)
    ensures d.id == PyStr(source) + "/" + PyStr(name) + "/" + PyStr(version)
    ensures forall k :: k in d.fields ==> DetectorKey(k)
    ensures "source" in d.fields && "name" in d.fields && "version" in d.fields
    ensures d.fields["source"] == source && d.fields["name"] == name && d.fields["version"] == version
    ensures ("url" in d.fields <==> Truthy(url)) && ("method" in d.fields <==> Truthy(how))
    ensures "url" in d.fields ==> d.fields["url"] == url
    ensures "method" in d.fields ==> d.fields["method"] == how
  {
    var base := map["source" := source, "name" := name, "version" := version];
    var withUrl := if Truthy(url) then base["url" := url] else base;
    Detector(PyStr(source) + "/" + PyStr(name) + "/" + PyStr(version),
             if Truthy(how) then withUrl["method" := how] else withUrl)
  }

  /** A detector as the constructor builds it from its own fields. */
  predicate WellFormed(d: Detector)
  {
    "source" in d.fields && "name" in d.fields && "version" in d.fields
    && d == NewDetector(d.fields["source"], d.fields["name"], d.fields["version"],
                        Get(d.fields, "url", Null), Get(d.fields, "method", Null))
  }

  /** `PiiDetector(**v)`: `v` must be a dict whose keys are constructor
      arguments, and must hold the three compulsory ones; anything else is
      the TypeError of a bad call. */
  function DetectorFromKwargs(v: Value): (r: Result<Detector>)
    ensures r.Ok? <==> v.Dict? && (forall k :: k in v.fields ==> DetectorKey(k))
                       && "source" in v.fields && "name" in v.fields && "version" in v.fields
    ensures r.Ok? ==> WellFormed(r.value)
    ensures r.Ok? ==> r.value.fields == KeptFields(v.fields)
    ensures r.Err? ==> r.error == PyError(TypeError)
  {
    if !v.Dict? then Err(PyError(TypeError))
    else if !(forall k :: k in v.fields ==> DetectorKey(k)) then Err(PyError(TypeError))
    else if !("source" in v.fields && "name" in v.fields && "version" in v.fields) then Err(PyError(TypeError))
    else
      var m := v.fields;
      var d := NewDetector(m["source"], m["name"], m["version"], Get(m, "url", Null), Get(m, "method", Null));
      NewDetectorWellFormed(m["source"], m["name"], m["version"], Get(m, "url", Null), Get(m, "method", Null));
      KwargsFields(m);
      Ok(d)
  }

  /** The arguments a detector keeps: all but a falsy url or method. */
  function KeptFields(m: map<string, Value>): map<string, Value>
  {
    map k | k in m && (Truthy(m[k]) || (k != "url" && k != "method")) :: m[k]
  }

  lemma KwargsFields(m: map<string, Value>)
    requires (forall k :: k in m ==> DetectorKey(k)) && "source" in m && "name" in m && "version" in m
    ensures NewDetector(m["source"], m["name"], m["version"], Get(m, "url", Null), Get(m, "method", Null)).fields == KeptFields(m)
  {
    var d := NewDetector(m["source"], m["name"], m["version"], Get(m, "url", Null), Get(m, "method", Null));
    var kept := KeptFields(m);
    assert forall k :: k in d.fields <==> k in kept;
    assert forall k :: k in d.fields ==> d.fields[k] == kept[k];
  }

  /** Every detector the constructor builds is well formed. */
  lemma NewDetectorWellFormed(source: Value, name: Value, version: Value, url: Value, how: Value)
    ensures WellFormed(NewDetector(source, name, version, url, how))
  {
    var d := NewDetector(source, name, version, url, how);
    assert Get(d.fields, "url", Null) == (if Truthy(url) then url else Null);
    assert Get(d.fields, "method", Null) == (if Truthy(how) then how else Null);
  }

  /** A detector survives its dict form: calling the constructor with the
      fields `asdict` returns gives the same detector. */
  lemma DetectorKwargsRoundTrip(d: Detector)
    requires WellFormed(d)
    ensures DetectorFromKwargs(Dict(d.fields)) == Ok(d)
  {
  }

  // -------------------------------------------------------------------
  // The detector registry

  /** Numbers exactly 1..n. */
  ghost predicate Dense(ds: map<int, Detector>)
  {
    forall k :: k in ds <==> 1 <= k <= |ds|
  }

  /** `detector_map` indexes `detectors` by id: every indexed id points to a
      detector with that id, and every registered detector is indexed. */
  predicate IndexOf(ds: map<int, Detector>, idx: map<string, int>)
  {
    (forall id :: id in idx ==> idx[id] in ds && ds[idx[id]].id == id)
    && forall k :: k in ds ==> ds[k].id in idx
  }

  /** No detector is registered twice. */
  predicate Distinct(ds: map<int, Detector>)
  {
    forall j, k :: j in ds && k in ds && ds[j].id == ds[k].id ==> j == k
  }

  /** A well-kept registry: numbers 1..n, each detector once, indexed. */
  ghost predicate Registry(ds: map<int, Detector>, idx: map<string, int>)
  {
    Dense(ds) && Distinct(ds) && IndexOf(ds, idx)
  }

  /** `add_detector` on the registry: a known id gives its number back; a
      new one is stored under the next number. */
  function AddDetectorSpec(ds: map<int, Detector>, idx: map<string, int>, d: Detector)
    : (r: (map<int, Detector>, map<string, int>, int))
    ensures r.1.Keys == idx.Keys + {d.id} && r.1[d.id] == r.2
    ensures forall id :: id in idx ==> r.1[id] == idx[id]
    ensures d.id in idx ==> r.0 == ds && r.1 == idx
    ensures d.id !in idx ==> r.2 == |ds| + 1 && r.0 == ds[r.2 := d]
  {
    if d.id in idx then (ds, idx, idx[d.id])
    else
      var num := |ds| + 1;
      (ds[num := d], idx[d.id := num], num)
  }

  /** In a well-kept registry the index is the exact inverse. */
  lemma RegistryInverse(ds: map<int, Detector>, idx: map<string, int>, k: int)
    requires Registry(ds, idx) && k in ds
    ensures idx[ds[k].id] == k
  {
  }

  /** Adding a detector keeps the registry well kept; the number returned
      is that of the detector's id, the number of a known id, or n+1 for a
      new one, which is then the only addition. */
  lemma AddDetectorKeeps(ds: map<int, Detector>, idx: map<string, int>, d: Detector)
    requires Registry(ds, idx)
    ensures var (ds2, idx2, n) := AddDetectorSpec(ds, idx, d);
      Registry(ds2, idx2) && n in ds2 && ds2[n].id == d.id
      && (d.id in idx ==> ds2 == ds && idx2 == idx && ds[n].id == d.id)
      && (d.id !in idx ==> n == |ds| + 1 && ds2 == ds[n := d] && |ds2| == |ds| + 1)
  {
    if d.id !in idx {
      DenseAdd(ds, d);
      RegistryAdd(ds, idx, d);
    }
  }

  /** The next number is free, and taking it keeps the numbers dense. */
  lemma DenseAdd(ds: map<int, Detector>, d: Detector)
    requires Dense(ds)
    ensures |ds| + 1 !in ds && |ds[|ds| + 1 := d]| == |ds| + 1 && Dense(ds[|ds| + 1 := d])
  {
    var num := |ds| + 1;
    assert num !in ds;
    var ds2 := ds[num := d];
    assert ds2.Keys == ds.Keys + {num};
    assert |ds2| == |ds| + 1;
    forall k ensures k in ds2 <==> 1 <= k <= |ds2| {
    }
  }

  /** A new id stored under a free number keeps the registry well kept. */
  lemma RegistryAdd(ds: map<int, Detector>, idx: map<string, int>, d: Detector)
    requires Registry(ds, idx) && d.id !in idx
    requires |ds| + 1 !in ds && Dense(ds[|ds| + 1 := d])
    ensures Registry(ds[|ds| + 1 := d], idx[d.id := |ds| + 1])
  {
  }

  /** Adding the same detector twice: the second call changes nothing and
      returns the same number. */
  lemma AddDetectorIdempotent(ds: map<int, Detector>, idx: map<string, int>, d: Detector)
    requires Registry(ds, idx)
    ensures var (ds2, idx2, n) := AddDetectorSpec(ds, idx, d);
      AddDetectorSpec(ds2, idx2, d) == (ds2, idx2, n)
  {
  }

  /** Registration goes by id only: two detectors with the same id (say,
      differing in url) share a number, and the first one's fields stay. */
  lemma AddDetectorById(ds: map<int, Detector>, idx: map<string, int>, d1: Detector, d2: Detector)
    requires Registry(ds, idx) && d1.id == d2.id
    ensures var (ds2, idx2, n) := AddDetectorSpec(ds, idx, d1);
      var (ds3, idx3, m) := AddDetectorSpec(ds2, idx2, d2);
      m == n && ds3 == ds2 && ds3[n] == (if d1.id in idx then ds[idx[d1.id]] else d1)
  {
    AddDetectorKeeps(ds, idx, d1);
  }

  /** A registry built by adding detectors one after another; an id already
      known keeps its number. */
  function AddAll(ds: map<int, Detector>, idx: map<string, int>, dets: seq<Detector>): (r: (map<int, Detector>, map<string, int>))
    ensures forall id :: id in idx ==> id in r.1 && r.1[id] == idx[id]
    decreases |dets|
  {
    if |dets| == 0 then (ds, idx)
    else
      var (ds2, idx2, _) := AddDetectorSpec(ds, idx, dets[0]);
      AddAll(ds2, idx2, dets[1..])
  }

  /** However many detectors are added, the registry stays well kept and
      holds each distinct id once. */
  lemma {:induction false} AddAllKeeps(ds: map<int, Detector>, idx: map<string, int>, dets: seq<Detector>)
    requires Registry(ds, idx)
    ensures Registry(AddAll(ds, idx, dets).0, AddAll(ds, idx, dets).1)
    ensures forall j :: 0 <= j < |dets| ==> dets[j].id in AddAll(ds, idx, dets).1
    ensures forall id :: id in AddAll(ds, idx, dets).1 <==> id in idx || exists j :: 0 <= j < |dets| && dets[j].id == id
    decreases |dets|
  {
    if |dets| > 0 {
      var (ds2, idx2, _) := AddDetectorSpec(ds, idx, dets[0]);
      AddDetectorKeeps(ds, idx, dets[0]);
      AddAllKeeps(ds2, idx2, dets[1..]);
      forall j | 0 <= j < |dets| ensures dets[j].id in AddAll(ds, idx, dets).1 {
        if j > 0 {
          assert dets[j] == dets[1..][j - 1];
        }
      }
      forall id | id in AddAll(ds, idx, dets).1
        ensures id in idx || exists j :: 0 <= j < |dets| && dets[j].id == id
      {
        if id !in idx && id != dets[0].id {
          var j :| 0 <= j < |dets[1..]| && dets[1..][j].id == id;
          assert dets[j + 1].id == id;
        }
      }
    }
  }

  // -------------------------------------------------------------------
  // Default fields

  /** `add` fills each default key the entity's fields lack. Since lang is
      kept in the entity's info rather than its fields, a default lang is
      stored even when the entity has its own, and the dict form then shows
      the default. */
  function DefaultsAsWritten(e: Entity, defaults: map<string, Value>): (r: Entity)
    ensures r.info == e.info && r.pos == e.pos
    ensures forall k :: k in e.fields ==> k in r.fields && r.fields[k] == e.fields[k]
  {
    e.(fields := (map k | k in defaults && k !in e.fields :: defaults[k]) + e.fields)
  }

  /** An entity with a language of its own. */
  const SpanishEntity: Entity :=
    Entity(PiiEntityInfo(GovId, Str("es"), Null, Null),
           map["type" := Str(Name(GovId)), "value" := Str("12345678"), "chunkid" := Str("1")], Int(0))

  /** Added to a collection whose default language is "pt", it is written
      out with language "pt". */
  lemma DefaultLangOverrides()
    ensures AsDict(SpanishEntity).Ok? && AsDict(SpanishEntity).value["lang"] == Str("es")
    ensures AsDict(DefaultsAsWritten(SpanishEntity, map["lang" := Str("pt")])).Ok?
    ensures AsDict(DefaultsAsWritten(SpanishEntity, map["lang" := Str("pt")])).value["lang"] == Str("pt")
  {
    var e2 := DefaultsAsWritten(SpanishEntity, map["lang" := Str("pt")]);
    BoundsOf(SpanishEntity, 0, Str("12345678"));
    assert "lang" !in SpanishEntity.fields;
    assert "lang" in e2.fields && e2.fields["lang"] == Str("pt");
    BoundsOf(e2, 0, Str("12345678"));
  }

  /** Defaults fill what the entity does not set: a key found neither in
      its fields nor among its info entries. */
  function WithDefaults(e: Entity, defaults: map<string, Value>): (r: Entity)
    ensures r.info == e.info && r.pos == e.pos
  {
    e.(fields := Filled(e, defaults, defaults.Keys))
  }

  /** The fields once the defaults named in `keys` are filled in. */
  function Filled(e: Entity, defaults: map<string, Value>, keys: set<string>): map<string, Value>
    requires keys <= defaults.Keys
  {
    (map k | k in keys && k !in e.fields && k !in InfoAsDict(e.info) :: defaults[k]) + e.fields
  }

  lemma FilledStep(e: Entity, defaults: map<string, Value>, keys: set<string>, k: string)
    requires keys <= defaults.Keys && k in defaults && k !in keys
    ensures k in Filled(e, defaults, keys) <==> k in e.fields
    ensures Filled(e, defaults, keys + {k}) ==
      if k !in Filled(e, defaults, keys) && k !in InfoAsDict(e.info)
      then Filled(e, defaults, keys)[k := defaults[k]] else Filled(e, defaults, keys)
  {
  }

  /** With the corrected filling, every entry of the entity's dict form
      stays, and a default appears exactly where the dict form had no entry
      (`start` and `end` are always computed). */
  lemma DefaultsFillOnlyMissing(e: Entity, defaults: map<string, Value>, k: string)
    requires AsDict(e).Ok? && k != "start" && k != "end"
    ensures AsDict(WithDefaults(e, defaults)).Ok?
    ensures k in AsDict(e).value ==> AsDict(WithDefaults(e, defaults)).value[k] == AsDict(e).value[k]
    ensures k !in AsDict(e).value && k in defaults ==> AsDict(WithDefaults(e, defaults)).value[k] == defaults[k]
    ensures k in AsDict(WithDefaults(e, defaults)).value <==> k in AsDict(e).value || k in defaults
  {
    var r := WithDefaults(e, defaults);
    assert "value" in r.fields <==> "value" in e.fields;
    if "value" in e.fields {
      assert r.fields["value"] == e.fields["value"];
    }
    assert Len(r) == Len(e);
  }

  /** The loop that fills the defaults, one key at a time. */
  method FillDefaults(e: Entity, defaults: map<string, Value>) returns (r: Entity)
    ensures r == WithDefaults(e, defaults)
  {
    var fields := e.fields;
    var todo := defaults.Keys;
    ghost var done: set<string> := {};
    while todo != {}
      invariant todo + done == defaults.Keys && todo !! done
      invariant fields == Filled(e, defaults, done)
      decreases |todo|
    {
      var k :| k in todo;
      FilledStep(e, defaults, done, k);
      if k !in fields && k !in InfoAsDict(e.info) {
        fields := fields[k := defaults[k]];
      }
      MoveOne(defaults.Keys, todo, done, k);
      todo := todo - {k};
      done := done + {k};
    }
    r := e.(fields := fields);
  }

  /** Moving one key from the keys still to do to the keys done. */
  lemma MoveOne(all: set<string>, todo: set<string>, done: set<string>, k: string)
    requires todo + done == all && todo !! done && k in todo
    ensures (todo - {k}) + (done + {k}) == all && (todo - {k}) !! (done + {k})
  {
  }

  // -------------------------------------------------------------------
  // The header's detector list and the dump

  /** `int(k)` on a key of the detector list, for keys written as Python
      writes integers (no sign other than a leading minus, no leading zero,
      no spaces or underscores); any other key fails. */
  function ParseKey(s: string): (r: Result<int>)
    ensures r.Ok? ==> IntToString(r.value) == s
    ensures r.Err? ==> r.error == PyError(ValueError)
  {
    if |s| > 1 && s[0] == '-' && IsDigits(s[1..]) && IntToString(-(ParseNat(s[1..]) as int)) == s then Ok(-(ParseNat(s[1..]) as int))
    else if IsDigits(s) && IntToString(ParseNat(s)) == s then Ok(ParseNat(s))
    else Err(PyError(ValueError))
  }

  /** Every number's decimal form reads back as that number. */
  lemma ParseKeyOfString(i: int)
    ensures ParseKey(IntToString(i)) == Ok(i)
  {
    if i < 0 {
      ParseNegativeKey(i);
    } else {
      ParseNatToString(i);
      var s := NatToString(i);
      assert IntToString(i) == s && s[0] != '-' && IsDigits(s);
    }
  }

  lemma ParseNegativeKey(i: int)
    requires i < 0
    ensures ParseKey(IntToString(i)) == Ok(i)
  {
    ParseSigned(-i);
  }

  /** The minus sign followed by the digits of n reads back as -n. */
  lemma ParseSigned(n: nat)
    requires n > 0
    ensures ParseKey("-" + NatToString(n)) == Ok(-(n as int))
  {
    ParseNatToString(n);
    NegativeString(n);
    ParseSignedDigits("-" + NatToString(n), NatToString(n), n);
  }

  lemma NegativeString(n: nat)
    requires n > 0
    ensures IntToString(-(n as int)) == "-" + NatToString(n)
  {
  }

  lemma ParseSignedDigits(s: string, t: string, n: nat)
    requires n > 0 && s == "-" + t && IsDigits(t) && ParseNat(t) == n && IntToString(-(n as int)) == s
    ensures ParseKey(s) == Ok(-(n as int))
  {
    assert s[1..] == t;
  }

  /** The registry as the header lists it: each detector's fields under its
      number (in the JSON form, where keys are decimal strings). */
  function DetectorsDict(ds: map<int, Detector>): (r: map<string, Value>)
    ensures forall k :: k in ds ==> IntToString(k) in r && r[IntToString(k)] == Dict(ds[k].fields)
    ensures forall s :: s in r ==> ParseKey(s).Ok? && ParseKey(s).value in ds
    ensures forall s :: s in r ==> s == IntToString(ParseKey(s).value)
  {
    var keys := set k | k in ds :: IntToString(k);
    assert forall k :: k in ds ==> ParseKey(IntToString(k)) == Ok(k) by {
      forall k | k in ds ensures ParseKey(IntToString(k)) == Ok(k) {
        ParseKeyOfString(k);
      }
    }
    map s | s in keys :: Dict(ds[ParseKey(s).value].fields)
  }

  /** The entities in their dict form, in order; the first one that has no
      dict form (no length, or a position that does not add) fails. */
  function EntityDicts(es: seq<Entity>): (r: Result<seq<Value>>)
    ensures r.Ok? <==> forall j :: 0 <= j < |es| ==> AsDict(es[j]).Ok?
    ensures r.Ok? ==> |r.value| == |es| && forall j :: 0 <= j < |es| ==> r.value[j] == Dict(AsDict(es[j]).value)
  {
    MapResult(es, EntityValue)
  }

  /** One entity's dict form, as a value. */
  function EntityValue(e: Entity): (r: Result<Value>)
    ensures r.Ok? <==> AsDict(e).Ok?
    ensures r.Ok? ==> r.value == Dict(AsDict(e).value)
  {
    var d :- AsDict(e);
    Ok(Dict(d))
  }

  /** What a dump writes: NDJSON lines (the header, then one entity per
      line), or one JSON document. */
  datatype Dumped = Lines(records: seq<Value>) | Document(doc: Value)

  /** The collection dumped, given its header: `ndjson`/`jsonl` give lines,
      `json` a document with `metadata` and `pii_list`; other formats are an
      InvArgException. */
  function DumpSpec(header: map<string, Value>, pii: seq<Entity>, format: string): (r: Result<Dumped>)
    ensures format !in {"ndjson", "jsonl", "json"} ==> r == Err(InvArg)
    ensures format in {"ndjson", "jsonl", "json"} ==> (r.Ok? <==> EntityDicts(pii).Ok?)
    ensures r.Ok? && format != "json" ==> r.value == Lines([Dict(header)] + EntityDicts(pii).value)
    ensures r.Ok? && format == "json" ==>
      r.value == Document(Dict(map["metadata" := Dict(header), "pii_list" := List(EntityDicts(pii).value)]))
  {
    if format == "ndjson" || format == "jsonl" then
      var lines :- EntityDicts(pii);
      Ok(Lines([Dict(header)] + lines))
    else if format == "json" then
      var lines :- EntityDicts(pii);
      Ok(Document(Dict(map["metadata" := Dict(header), "pii_list" := List(lines)])))
    else Err(InvArg)
  }

  /** The NDJSON and JSON forms hold the same data: the first line is the
      metadata, the others the entity list. */
  lemma DumpFormsAgree(header: map<string, Value>, pii: seq<Entity>)
    requires EntityDicts(pii).Ok?
    ensures var lines := DumpSpec(header, pii, "ndjson").value.records;
      var doc := DumpSpec(header, pii, "json").value.doc;
      DumpSpec(header, pii, "jsonl") == DumpSpec(header, pii, "ndjson")
      && doc == Dict(map["metadata" := lines[0], "pii_list" := List(lines[1..])])
  {
    var lines := DumpSpec(header, pii, "ndjson").value.records;
    assert lines[1..] == EntityDicts(pii).value;
  }

  /** The defaults of a new collection: lang and docid, when given. */
  function DefaultsOf(lang: Value, docid: Value): (r: map<string, Value>)
    ensures "lang" in r <==> Truthy(lang)
    ensures "docid" in r <==> Truthy(docid)
    ensures r.Keys <= {"lang", "docid"}
    ensures "lang" in r ==> r["lang"] == lang
    ensures "docid" in r ==> r["docid"] == docid
  {
    var withLang: map<string, Value> := if Truthy(lang) then map["lang" := lang] else map[];
    if Truthy(docid) then withLang["docid" := docid] else withLang
  }

  // -------------------------------------------------------------------
  // The collection

  class PiiCollection {
    var defaults: map<string, Value>
    /** `detectors`: number -> detector. */
    var detectors: map<int, Detector>
    /** `detector_map`: detector id -> number. */
    var detectorMap: map<string, int>
    var pii: seq<Entity>
    /** `_header`. */
    var header: map<string, Value>

    /** The registry is well kept. */
    ghost predicate Valid()
      reads this
    {
      Registry(detectors, detectorMap)
    }

    /** A new, empty collection; `date` is the creation time, which the
        header records with the format tag and the default language. */
    constructor (lang: Value, docid: Value, date: Value)
      ensures Valid()
      ensures defaults == DefaultsOf(lang, docid)
      ensures detectors == map[] && detectorMap == map[] && pii == []
      ensures header == map["date" := date, "format" := Str(FMT_PIICOLLECTION),
                            "lang" := Get(DefaultsOf(lang, docid), "lang", Null)]
    {
      defaults := DefaultsOf(lang, docid);
      detectors := map[];
      detectorMap := map[];
      pii := [];
      header := map["date" := date, "format" := Str(FMT_PIICOLLECTION),
                    "lang" := Get(DefaultsOf(lang, docid), "lang", Null)];
    }

    /** `header()`: the header with its detector list refreshed from the
        registry. */
    method Header() returns (h: map<string, Value>)
      modifies this
      ensures header == old(header)["detectors" := Dict(DetectorsDict(detectors))] && h == header
      ensures defaults == old(defaults) && detectors == old(detectors)
      ensures detectorMap == old(detectorMap) && pii == old(pii)
    {
      header := header["detectors" := Dict(DetectorsDict(detectors))];
      h := header;
    }

    /** `stage(value)`: a non-empty value becomes the stage; the current
        stage (None when unset) is returned. */
    method Stage(value: Value) returns (s: Value)
      modifies this
      ensures header == if Truthy(value) then old(header)["stage" := value] else old(header)
      ensures s == Get(header, "stage", Null)
      ensures Truthy(value) ==> s == value
      ensures defaults == old(defaults) && detectors == old(detectors)
      ensures detectorMap == old(detectorMap) && pii == old(pii)
    {
      if Truthy(value) {
        header := header["stage" := value];
      }
      s := Get(header, "stage", Null);
    }

    /** `add_detector`: register the detector (if new) and return its
        number; the stage becomes "detection". */
    method AddDetector(d: Detector) returns (n: int)
      modifies this
      ensures (detectors, detectorMap, n) == AddDetectorSpec(old(detectors), old(detectorMap), d)
      ensures header == old(header)["stage" := Str("detection")]
      ensures old(Valid()) ==> Valid() && n in detectors && detectors[n].id == d.id
      ensures defaults == old(defaults) && pii == old(pii)
    {
      if d.id !in detectorMap {
        var num := |detectors| + 1;
        detectors := detectors[num := d];
        detectorMap := detectorMap[d.id := num];
      }
      var _ := Stage(Str("detection"));
      n := detectorMap[d.id];
      if old(Valid()) {
        AddDetectorKeeps(old(detectors), old(detectorMap), d);
      }
    }

    /** `add`: record the detector's number in the entity (when a detector
        is given), fill the defaults the entity does not set, and append it;
        nothing else but the registry and the stage changes. */
    method Add(e: Entity, detector: Option<Detector>)
      modifies this
      ensures detector.None? ==> detectors == old(detectors) && detectorMap == old(detectorMap) && header == old(header)
      ensures detector.Some? ==>
        var (ds, idx, n) := AddDetectorSpec(old(detectors), old(detectorMap), detector.value);
        detectors == ds && detectorMap == idx && header == old(header)["stage" := Str("detection")]
        && pii == old(pii) + [WithDefaults(e.(fields := e.fields["detector" := Int(n)]), defaults)]
      ensures detector.None? ==> pii == old(pii) + [WithDefaults(e, defaults)]
      ensures old(Valid()) ==> Valid()
      ensures defaults == old(defaults) && |pii| == |old(pii)| + 1
    {
      var ent := e;
      if detector.Some? {
        var n := AddDetector(detector.value);
        ent := ent.(fields := ent.fields["detector" := Int(n)]);
      }
      ent := FillDefaults(ent, defaults);
      pii := pii + [ent];
    }

    /** `set_decision`: store the decision info; the stage becomes
        "decision". */
    method SetDecision(info: Value)
      modifies this
      ensures header == old(header)["decision" := info]["stage" := Str("decision")]
      ensures defaults == old(defaults) && detectors == old(detectors)
      ensures detectorMap == old(detectorMap) && pii == old(pii)
    {
      header := header["decision" := info];
      var _ := Stage(Str("decision"));
    }

    /** `dump`: refresh the header (even when the format is then refused)
        and write the collection in the requested format. */
    method Dump(format: string) returns (r: Result<Dumped>)
      modifies this
      ensures header == old(header)["detectors" := Dict(DetectorsDict(detectors))]
      ensures r == DumpSpec(header, pii, format)
      ensures defaults == old(defaults) && detectors == old(detectors)
      ensures detectorMap == old(detectorMap) && pii == old(pii)
    {
      var h := Header();
      if format == "ndjson" || format == "jsonl" {
        var lines := EntityDicts(pii);
        if lines.Err? {
          return Err(lines.error);
        }
        r := Ok(Lines([Dict(h)] + lines.value));
      } else if format == "json" {
        var lines := EntityDicts(pii);
        if lines.Err? {
          return Err(lines.error);
        }
        r := Ok(Document(Dict(map["metadata" := Dict(h), "pii_list" := List(lines.value)])));
      } else {
        r := Err(InvArg);
      }
    }
  }
}
