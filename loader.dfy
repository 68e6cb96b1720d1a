// Loading a PII collection (types/piicollection/loader.py): the header is
// checked for the collection format tag, the detector list is turned back
// into a registry (numbers from the keys, detectors from the fields), and
// the entities are rebuilt from their dict form. JSON files hold one
// document; NDJSON files hold the header on the first line and one entity
// per further line.

module CollectionLoader {
  import opened Values
  import opened Defs
  import opened PiiEntities
  import opened Collection
  import Io

  /** A parsed JSON text, or one that does not parse. */
  datatype Parsed = Json(v: Value) | Malformed

  /** `check_format`: the header's `format` must be the collection tag
      (InvArgException otherwise); a header that is not a dict has no `get`. */
  function CheckFormat(meta: Value): (r: Result<()>)
    ensures r.Ok? <==> meta.Dict? && "format" in meta.fields && meta.fields["format"] == Str(FMT_PIICOLLECTION)
    ensures meta.Dict? && r.Err? ==> r.error == InvArg
    ensures !meta.Dict? ==> r == Err(PyError(AttributeError))
  {
    if !meta.Dict? then Err(PyError(AttributeError))
    else if Get(meta.fields, "format", Null) == Str(FMT_PIICOLLECTION) then Ok(())
    else Err(InvArg)
  }

  /** `v[k]`: a missing key is a KeyError; anything but a dict cannot be
      indexed by a string. */
  function Item(v: Value, k: string): (r: Result<Value>)
    ensures v.Dict? && k in v.fields ==> r == Ok(v.fields[k])
    ensures v.Dict? && k !in v.fields ==> r == Err(PyError(KeyError))
    ensures !v.Dict? ==> r == Err(PyError(TypeError))
  {
    match v
    case Dict(m) => if k in m then Ok(m[k]) else Err(PyError(KeyError))
    case _ => Err(PyError(TypeError))
  }

  // -------------------------------------------------------------------
  // The detector list

  /** The keys of a detector list, as numbers. */
  function Numbers(m: map<string, Value>): (r: set<int>)
    requires forall s :: s in m ==> ParseKey(s).Ok?
    ensures forall k :: k in r <==> IntToString(k) in m
  {
    var r := set s | s in m :: ParseKey(s).value;
    assert forall k :: IntToString(k) in m ==> k in r by {
      forall k | IntToString(k) in m ensures k in r {
        ParseKeyOfString(k);
      }
    }
    r
  }

  /** `_load_detectors`, first half: `{int(k): PiiDetector(**v)}`; any
      failure (a list that is not a dict, a key that is not a number, a
      value the constructor refuses) becomes a ProcException. */
  function LoadedDetectors(dets: Value): (r: Result<map<int, Detector>>)
    ensures r.Err? ==> r.error == Proc
    ensures r.Ok? <==> dets.Dict? && forall s :: s in dets.fields ==> ParseKey(s).Ok? && DetectorFromKwargs(dets.fields[s]).Ok?
    ensures r.Ok? ==> forall k :: k in r.value <==> IntToString(k) in dets.fields
    ensures r.Ok? ==> forall k :: k in r.value ==> Ok(r.value[k]) == DetectorFromKwargs(dets.fields[IntToString(k)])
  {
    if !dets.Dict? then Err(Proc)
    else if !(forall s :: s in dets.fields ==> ParseKey(s).Ok? && DetectorFromKwargs(dets.fields[s]).Ok?) then Err(Proc)
    else
      var m := dets.fields;
      Ok(map k | k in Numbers(m) :: DetectorFromKwargs(m[IntToString(k)]).value)
  }

  /** With no detector listed twice, the index is determined: it is the
      exact inverse of the registry. */
  lemma IndexDetermined(ds: map<int, Detector>, a: map<string, int>, b: map<string, int>)
    requires Distinct(ds) && IndexOf(ds, a) && IndexOf(ds, b)
    ensures a == b
  {
    forall id | id in a ensures id in b && a[id] == b[id] {
      var k := a[id];
      assert ds[k].id == id;
    }
    forall id | id in b ensures id in a {
      var k := b[id];
      assert k in ds && ds[k].id == id;
      assert ds[k].id in a;
    }
  }

  /** Every key of a listed registry is a number and every entry a valid
      set of constructor arguments. */
  lemma DetectorsDictLoads(ds: map<int, Detector>)
    requires forall k :: k in ds ==> WellFormed(ds[k])
    ensures LoadedDetectors(Dict(DetectorsDict(ds))).Ok?
  {
    var m := DetectorsDict(ds);
    forall s | s in m ensures ParseKey(s).Ok? && DetectorFromKwargs(m[s]).Ok? {
      DetectorKwargsRoundTrip(ds[ParseKey(s).value]);
    }
  }

  /** Each registered detector is loaded back under its own number. */
  lemma DetectorsLoadBack(ds: map<int, Detector>)
    requires forall k :: k in ds ==> WellFormed(ds[k])
    ensures LoadedDetectors(Dict(DetectorsDict(ds))).Ok?
    ensures forall k :: k in ds ==> k in LoadedDetectors(Dict(DetectorsDict(ds))).value
    ensures forall k :: k in ds ==> LoadedDetectors(Dict(DetectorsDict(ds))).value[k] == ds[k]
  {
    DetectorsDictLoads(ds);
    var r := LoadedDetectors(Dict(DetectorsDict(ds))).value;
    forall k | k in ds ensures k in r && r[k] == ds[k] {
      DetectorKwargsRoundTrip(ds[k]);
    }
  }

  /** Only registered numbers are loaded back. */
  lemma LoadedNumbersRegistered(ds: map<int, Detector>)
    requires LoadedDetectors(Dict(DetectorsDict(ds))).Ok?
    ensures forall k :: k in LoadedDetectors(Dict(DetectorsDict(ds))).value ==> k in ds
  {
    var r := LoadedDetectors(Dict(DetectorsDict(ds))).value;
    forall k | k in r ensures k in ds {
      ParseKeyOfString(k);
    }
  }

  /** The header's detector list of a registry of well-formed detectors
      loads back as the same registry. */
  lemma DetectorsRoundTrip(ds: map<int, Detector>)
    requires forall k :: k in ds ==> WellFormed(ds[k])
    ensures LoadedDetectors(Dict(DetectorsDict(ds))) == Ok(ds)
  {
    DetectorsLoadBack(ds);
    LoadedNumbersRegistered(ds);
    SameRegistry(LoadedDetectors(Dict(DetectorsDict(ds))).value, ds);
  }

  /** Two registries with the same numbers and the same detectors under
      them are equal. */
  lemma SameRegistry(r: map<int, Detector>, ds: map<int, Detector>)
    requires forall k :: k in ds ==> k in r && r[k] == ds[k]
    requires forall k :: k in r ==> k in ds
    ensures r == ds
  {
    forall k: int | k in ds ensures k in r && r[k] == ds[k] {}
    forall k: int | k in r ensures k in ds {}
  }

  // -------------------------------------------------------------------
  // Entities

  /** `PiiEntity.fromdict(d)`: `d` must be a dict. */
  function EntityOf(v: Value): (r: Result<Entity>)
    ensures v.Dict? ==> r == FromDict(v.fields)
    ensures !v.Dict? ==> r == Err(PyError(TypeError))
  {
    if v.Dict? then FromDict(v.fields) else Err(PyError(TypeError))
  }

  /** The entities of a list of dicts, in order; the first failure wins. */
  function EntitiesOf(vs: seq<Value>): (r: Result<seq<Entity>>)
    ensures r.Ok? <==> forall j :: 0 <= j < |vs| ==> EntityOf(vs[j]).Ok?
    ensures r.Ok? ==> |r.value| == |vs| && forall j :: 0 <= j < |vs| ==> EntityOf(vs[j]) == Ok(r.value[j])
  {
    MapResult(vs, EntityOf)
  }

  /** `[fromdict(d) for d in v]` on the JSON `pii_list`: a list gives its
      elements; an empty dict or string gives none; a non-empty dict or
      string gives strings, which are not dicts; other values do not
      iterate. */
  function JsonEntities(v: Value): (r: Result<seq<Entity>>)
    ensures v.List? ==> r == EntitiesOf(v.items)
    ensures (v.Dict? && |v.fields| == 0) || (v.Str? && |v.s| == 0) ==> r == Ok([])
  {
    match v
    case List(xs) => EntitiesOf(xs)
    case Dict(m) => if |m| == 0 then Ok([]) else Err(PyError(TypeError))
    case Str(s) => if |s| == 0 then Ok([]) else Err(PyError(TypeError))
    case _ => Err(PyError(TypeError))
  }

  /** One NDJSON entity line: a line that does not parse is a
      JSONDecodeError (a ValueError). */
  function LineEntity(line: Parsed): (r: Result<Entity>)
    ensures line.Malformed? ==> r == Err(PyError(ValueError))
    ensures line.Json? ==> r == EntityOf(line.v)
  {
    if line.Malformed? then Err(PyError(ValueError)) else EntityOf(line.v)
  }

  /** The entities of the NDJSON lines after the header, in order. */
  function LineEntities(lines: seq<Parsed>): (r: Result<seq<Entity>>)
    ensures r.Ok? <==> forall j :: 0 <= j < |lines| ==> LineEntity(lines[j]).Ok?
    ensures r.Ok? ==> |r.value| == |lines| && forall j :: 0 <= j < |lines| ==> LineEntity(lines[j]) == Ok(r.value[j])
  {
    MapResult(lines, LineEntity)
  }

  // -------------------------------------------------------------------
  // What a load does

  /** The outcome of a load: the parts of the collection it replaced
      (None: left as it was, since the load failed before reaching it) and
      its result. */
  datatype Loaded = Loaded(header: Option<map<string, Value>>, detectors: Option<map<int, Detector>>,
                           pii: Option<seq<Entity>>, result: Result<()>)

  function Failed(e: Error): Loaded
  {
    Loaded(None, None, None, Err(e))
  }

  /** Once the header is accepted: it replaces the collection header, then
      its detector list is loaded, then the entities. */
  function AfterHeader(meta: map<string, Value>, pii: Result<seq<Entity>>): (o: Loaded)
    ensures o.header == Some(meta)
  {
    match Item(Dict(meta), "detectors")
    case Err(e) => Loaded(Some(meta), None, None, Err(e))
    case Ok(dets) =>
      match LoadedDetectors(dets)
      case Err(e) => Loaded(Some(meta), None, None, Err(e))
      case Ok(ds) =>
        match pii
        case Err(e) => Loaded(Some(meta), Some(ds), None, Err(e))
        case Ok(es) => Loaded(Some(meta), Some(ds), Some(es), Ok(()))
  }

  /** `load_json`: a text that does not parse is a FileException; then the
      `metadata` entry, its check, and the `pii_list` entry. */
  function JsonLoad(doc: Parsed): (o: Loaded)
    ensures doc.Malformed? ==> o == Failed(FileError)
    ensures o.result.Ok? ==> o.header.Some? && o.detectors.Some? && o.pii.Some?
    ensures o.header.Some? ==> Item(doc.v, "metadata") == Ok(Dict(o.header.value))
                               && CheckFormat(Dict(o.header.value)).Ok?
  {
    if doc.Malformed? then Failed(FileError)
    else
      match Item(doc.v, "metadata")
      case Err(e) => Failed(e)
      case Ok(meta) =>
        match CheckFormat(meta)
        case Err(e) => Failed(e)
        case Ok(_) =>
          AfterHeader(meta.fields, match Item(doc.v, "pii_list")
                                   case Err(e) => Err(e)
                                   case Ok(v) => JsonEntities(v))
  }

  /** `load_ndjson`: the first line is the header (no line at all is the
      StopIteration of `next`, a line that does not parse a ValueError);
      every further line is one entity. */
  function NdjsonLoad(lines: seq<Parsed>): (o: Loaded)
    ensures |lines| == 0 ==> o == Failed(PyError(StopIteration))
    ensures o.result.Ok? ==> o.header.Some? && o.detectors.Some? && o.pii.Some? && |o.pii.value| == |lines| - 1
    ensures o.header.Some? ==> lines[0] == Json(Dict(o.header.value)) && CheckFormat(lines[0].v).Ok?
  {
    if |lines| == 0 then Failed(PyError(StopIteration))
    else if lines[0].Malformed? then Failed(PyError(ValueError))
    else
      match CheckFormat(lines[0].v)
      case Err(e) => Failed(e)
      case Ok(_) => AfterHeader(lines[0].v.fields, LineEntities(lines[1..]))
  }

  /** The file layouts a collection can be loaded from. */
  datatype Layout = WholeJson | JsonLines

  /** `load`: the layout follows the base extension (compression suffixes
      aside); anything else is a FileException. */
  function LayoutOf(filename: Io.PathArg): (r: Result<Layout>)
    ensures Io.BaseExtension(filename) == ".json" <==> r == Ok(WholeJson)
    ensures Io.BaseExtension(filename) in {".ndjson", ".jsonl"} <==> r == Ok(JsonLines)
    ensures r.Err? ==> r.error == FileError
  {
    var ext := Io.BaseExtension(filename);
    if ext == ".json" then Ok(WholeJson)
    else if ext == ".ndjson" || ext == ".jsonl" then Ok(JsonLines)
    else Err(FileError)
  }

  /** A file's contents, as the two layouts read it: the whole text as one
      JSON document, and its lines one by one. */
  datatype FileData = FileData(whole: Parsed, lines: seq<Parsed>)

  function FileLoad(filename: Io.PathArg, file: FileData): (o: Loaded)
    ensures LayoutOf(filename) == Ok(WholeJson) ==> o == JsonLoad(file.whole)
    ensures LayoutOf(filename) == Ok(JsonLines) ==> o == NdjsonLoad(file.lines)
    ensures LayoutOf(filename).Err? ==> o == Failed(FileError)
  {
    match LayoutOf(filename)
    case Err(e) => Failed(e)
    case Ok(WholeJson) => JsonLoad(file.whole)
    case Ok(JsonLines) => NdjsonLoad(file.lines)
  }

  // -------------------------------------------------------------------
  // Round trips

  /** Parsed NDJSON lines of a dump. */
  function AsLines(records: seq<Value>): (r: seq<Parsed>)
    ensures |r| == |records| && forall j :: 0 <= j < |records| ==> r[j] == Json(records[j])
  {
    if |records| == 0 then [] else [Json(records[0])] + AsLines(records[1..])
  }

  /** What a collection can hold to survive a dump: a header with the
      collection tag, well-formed detectors, and entities in built form. */
  ghost predicate Dumpable(header: map<string, Value>, ds: map<int, Detector>, pii: seq<Entity>)
  {
    "format" in header && header["format"] == Str(FMT_PIICOLLECTION)
    && (forall k :: k in ds ==> WellFormed(ds[k]))
    && forall j :: 0 <= j < |pii| ==> BuiltForm(pii[j])
  }

  /** Each entity in built form is rebuilt from its dict. */
  lemma EntityDictsRebuild(pii: seq<Entity>)
    requires forall j :: 0 <= j < |pii| ==> BuiltForm(pii[j])
    ensures EntityDicts(pii).Ok? && |EntityDicts(pii).value| == |pii|
    ensures forall j :: 0 <= j < |pii| ==> EntityOf(EntityDicts(pii).value[j]) == Ok(pii[j])
  {
    forall j | 0 <= j < |pii| ensures AsDict(pii[j]).Ok? && FromDict(AsDict(pii[j]).value) == Ok(pii[j]) {
      FromDictAsDict(pii[j]);
    }
  }

  /** Two entity lists that agree everywhere are equal. */
  lemma SameEntities(a: seq<Entity>, b: seq<Entity>)
    requires |a| == |b| && forall j :: 0 <= j < |a| ==> a[j] == b[j]
    ensures a == b
  {
    forall j: int | 0 <= j < |a| ensures a[j] == b[j] {}
  }

  /** The entities' dicts, in the JSON list or on NDJSON lines, load back as
      the same entities. */
  lemma EntitiesRoundTrip(pii: seq<Entity>)
    requires forall j :: 0 <= j < |pii| ==> BuiltForm(pii[j])
    ensures EntityDicts(pii).Ok?
    ensures EntitiesOf(EntityDicts(pii).value) == Ok(pii)
    ensures LineEntities(AsLines(EntityDicts(pii).value)) == Ok(pii)
  {
    EntityDictsRebuild(pii);
    EntitiesRebuilt(EntityDicts(pii).value, pii);
  }

  /** Dicts that each rebuild an entity rebuild the list of them, as a JSON
      list and as NDJSON lines. */
  lemma EntitiesRebuilt(vs: seq<Value>, pii: seq<Entity>)
    requires |vs| == |pii| && forall j :: 0 <= j < |vs| ==> EntityOf(vs[j]) == Ok(pii[j])
    ensures EntitiesOf(vs) == Ok(pii)
    ensures LineEntities(AsLines(vs)) == Ok(pii)
  {
    SameEntities(EntitiesOf(vs).value, pii);
    LinesRebuilt(AsLines(vs), pii);
  }

  /** NDJSON lines that each rebuild an entity rebuild the list of them. */
  lemma LinesRebuilt(lines: seq<Parsed>, pii: seq<Entity>)
    requires |lines| == |pii| && forall j :: 0 <= j < |lines| ==> LineEntity(lines[j]) == Ok(pii[j])
    ensures LineEntities(lines) == Ok(pii)
  {
    SameEntities(LineEntities(lines).value, pii);
  }

  /** A dumped header whose detector list is the registry's, followed by
      the entities, loads as that header, registry and entity list. */
  lemma AfterDumpedHeader(h: map<string, Value>, ds: map<int, Detector>, pii: seq<Entity>)
    requires "detectors" in h && h["detectors"] == Dict(DetectorsDict(ds))
    requires forall k :: k in ds ==> WellFormed(ds[k])
    ensures AfterHeader(h, Ok(pii)) == Loaded(Some(h), Some(ds), Some(pii), Ok(()))
  {
    DetectorsRoundTrip(ds);
  }

  /** The NDJSON dump, as parsed lines: the header, then the entities. */
  lemma NdjsonDumpLines(h: map<string, Value>, pii: seq<Entity>)
    requires EntityDicts(pii).Ok?
    ensures DumpSpec(h, pii, "ndjson").Ok?
    ensures AsLines(DumpSpec(h, pii, "ndjson").value.records) == [Json(Dict(h))] + AsLines(EntityDicts(pii).value)
  {
    var records := DumpSpec(h, pii, "ndjson").value.records;
    var lines := AsLines(records);
    assert lines[0] == Json(Dict(h));
    assert lines[1..] == AsLines(EntityDicts(pii).value);
    assert lines == [lines[0]] + lines[1..];
  }

  /** NDJSON lines that start with an accepted header load through the
      common tail. */
  lemma NdjsonLoadAccepted(h: map<string, Value>, rest: seq<Parsed>)
    requires CheckFormat(Dict(h)).Ok?
    ensures NdjsonLoad([Json(Dict(h))] + rest) == AfterHeader(h, LineEntities(rest))
  {
    assert ([Json(Dict(h))] + rest)[1..] == rest;
  }

  /** An NDJSON dump loads back as the same collection: the header as the
      dump wrote it, the same registry, the same entities. */
  lemma NdjsonRoundTrip(header: map<string, Value>, ds: map<int, Detector>, pii: seq<Entity>)
    requires Dumpable(header, ds, pii)
    ensures var h := header["detectors" := Dict(DetectorsDict(ds))];
      DumpSpec(h, pii, "ndjson").Ok?
      && NdjsonLoad(AsLines(DumpSpec(h, pii, "ndjson").value.records))
         == Loaded(Some(h), Some(ds), Some(pii), Ok(()))
  {
    var h := header["detectors" := Dict(DetectorsDict(ds))];
    EntitiesRoundTrip(pii);
    NdjsonDumpLines(h, pii);
    NdjsonLoadAccepted(h, AsLines(EntityDicts(pii).value));
    AfterDumpedHeader(h, ds, pii);
  }

  /** A JSON document with an accepted `metadata` and a `pii_list` list
      loads through the common tail. */
  lemma JsonLoadAccepted(h: map<string, Value>, vs: seq<Value>)
    requires CheckFormat(Dict(h)).Ok?
    ensures JsonLoad(Json(Dict(map["metadata" := Dict(h), "pii_list" := List(vs)]))) == AfterHeader(h, EntitiesOf(vs))
  {
    var doc := Dict(map["metadata" := Dict(h), "pii_list" := List(vs)]);
    assert Item(doc, "metadata") == Ok(Dict(h));
    assert Item(doc, "pii_list") == Ok(List(vs));
  }

  /** A JSON dump loads back as the same collection. */
  lemma JsonRoundTrip(header: map<string, Value>, ds: map<int, Detector>, pii: seq<Entity>)
    requires Dumpable(header, ds, pii)
    ensures var h := header["detectors" := Dict(DetectorsDict(ds))];
      DumpSpec(h, pii, "json").Ok?
      && JsonLoad(Json(DumpSpec(h, pii, "json").value.doc)) == Loaded(Some(h), Some(ds), Some(pii), Ok(()))
  {
    var h := header["detectors" := Dict(DetectorsDict(ds))];
    EntitiesRoundTrip(pii);
    JsonLoadAccepted(h, EntityDicts(pii).value);
    AfterDumpedHeader(h, ds, pii);
  }

  // -------------------------------------------------------------------
  // The loader's methods, on a collection

  /** The collection after a load with outcome `o`. */
  twostate predicate Applied(c: PiiCollection, o: Loaded)
    reads c
  {
    c.header == (if o.header.Some? then o.header.value else old(c.header))
    && (o.detectors.Some? ==> c.detectors == o.detectors.value && IndexOf(c.detectors, c.detectorMap))
    && (o.detectors.None? ==> c.detectors == old(c.detectors) && c.detectorMap == old(c.detectorMap))
    && c.pii == (if o.pii.Some? then o.pii.value else old(c.pii))
    && c.defaults == old(c.defaults)
  }

  /** A set of numbers that is not empty has an element. */
  lemma SomeNumber(s: set<int>)
    requires s != {}
    ensures exists k :: k in s
  {
    if forall k :: k !in s {
      assert false;
    }
  }

  /** The second half of `_load_detectors`: `detector_map` as id ->
      number, built one detector at a time. */
  method InverseIndex(ds: map<int, Detector>) returns (idx: map<string, int>)
    ensures IndexOf(ds, idx)
    ensures Distinct(ds) ==> forall k :: k in ds ==> idx[ds[k].id] == k
  {
    idx := map[];
    var todo := ds.Keys;
    ghost var done: set<int> := {};
    while todo != {}
      invariant todo == ds.Keys - done && done <= ds.Keys
      invariant forall id :: id in idx ==> idx[id] in done && ds[idx[id]].id == id
      invariant forall k :: k in done ==> ds[k].id in idx
      decreases todo
    {
      SomeNumber(todo);
      var k :| k in todo;
      idx := idx[ds[k].id := k];
      todo := todo - {k};
      done := done + {k};
    }
  }

  /** `_load_detectors`: the registry from the list, then its index. */
  method LoadDetectors(c: PiiCollection, loaded: Result<map<int, Detector>>) returns (r: Result<()>)
    modifies c
    ensures r.Err? ==> loaded.Err? && r.error == loaded.error
    ensures r.Err? ==> c.detectors == old(c.detectors) && c.detectorMap == old(c.detectorMap)
    ensures r.Ok? ==> loaded.Ok? && c.detectors == loaded.value
    ensures r.Ok? ==> IndexOf(c.detectors, c.detectorMap)
    ensures c.header == old(c.header) && c.pii == old(c.pii) && c.defaults == old(c.defaults)
  {
    if loaded.Err? {
      return Err(loaded.error);
    }
    var idx := InverseIndex(loaded.value);
    c.detectors := loaded.value;
    c.detectorMap := idx;
    r := Ok(());
  }

  /** `load_json` on a collection. */
  method LoadJson(c: PiiCollection, doc: Parsed) returns (r: Result<()>)
    modifies c
    ensures r == JsonLoad(doc).result && Applied(c, JsonLoad(doc))
  {
    if doc.Malformed? {
      return Err(FileError);
    }
    var meta := Item(doc.v, "metadata");
    if meta.Err? {
      return Err(meta.error);
    }
    var ok := CheckFormat(meta.value);
    if ok.Err? {
      return Err(ok.error);
    }
    r := LoadAfterHeader(c, meta.value.fields, match Item(doc.v, "pii_list")
                                               case Err(e) => Err(e)
                                               case Ok(v) => JsonEntities(v));
  }

  /** `load_ndjson` on a collection. */
  method LoadNdjson(c: PiiCollection, lines: seq<Parsed>) returns (r: Result<()>)
    modifies c
    ensures r == NdjsonLoad(lines).result && Applied(c, NdjsonLoad(lines))
  {
    if |lines| == 0 {
      return Err(PyError(StopIteration));
    }
    if lines[0].Malformed? {
      return Err(PyError(ValueError));
    }
    var ok := CheckFormat(lines[0].v);
    if ok.Err? {
      return Err(ok.error);
    }
    r := LoadAfterHeader(c, lines[0].v.fields, LineEntities(lines[1..]));
  }

  /** The common tail of both loads: `_set_header`, `_load_detectors`, and
      the entity list. */
  method LoadAfterHeader(c: PiiCollection, meta: map<string, Value>, pii: Result<seq<Entity>>) returns (r: Result<()>)
    modifies c
    ensures r == AfterHeader(meta, pii).result && Applied(c, AfterHeader(meta, pii))
  {
    c.header := meta;
    var dets := Item(Dict(meta), "detectors");
    if dets.Err? {
      return Err(dets.error);
    }
    r := LoadDetectors(c, LoadedDetectors(dets.value));
    if r.Err? {
      return;
    }
    if pii.Err? {
      return Err(pii.error);
    }
    c.pii := pii.value;
    r := Ok(());
  }

  /** `load`: pick the layout from the file name and load. */
  method Load(c: PiiCollection, filename: Io.PathArg, file: FileData) returns (r: Result<()>)
    modifies c
    ensures r == FileLoad(filename, file).result && Applied(c, FileLoad(filename, file))
  {
    var layout := LayoutOf(filename);
    if layout.Err? {
      return Err(layout.error);
    }
    if layout.value == WholeJson {
      r := LoadJson(c, file.whole);
    } else {
      r := LoadNdjson(c, file.lines);
    }
  }

  /** After a load of a well-kept registry, adding a detector that is
      already listed gives its stored number and changes nothing. */
  lemma KnownDetectorAfterLoad(ds: map<int, Detector>, idx: map<string, int>, d: Detector, k: int)
    requires Registry(ds, idx) && k in ds && ds[k].id == d.id
    ensures AddDetectorSpec(ds, idx, d) == (ds, idx, k)
  {
    RegistryInverse(ds, idx, k);
  }
}
