// The older PII collection (types/piicollection.py): the same registry of
// detectors and list of entities as the newer one, without stages or a
// stored header. Its detector constructor takes name, version, source in
// that order; its dump writes a `format_version` tag as well; and its loader
// keeps the detector list's keys as the strings JSON gives and the entities
// as plain parsed values.

module LegacyCollection {
  import opened Values
  import opened PiiEntities
  import opened Collection
  import opened CollectionLoader

  // -------------------------------------------------------------------
  // Detectors

  /** `PiiDetector(name, version, source, url, method)`: id
      "source/name/version"; name, version and source always stored, url
      and method only when truthy. */
  function NewLegacyDetector(name: Value, version: Value, source: Value, url: Value, how: Value): (d: Detector)
    ensures d.id == PyStr(source) + "/" + PyStr(name) + "/" + PyStr(version)
    ensures "name" in d.fields && "version" in d.fields && "source" in d.fields
    ensures d.fields["name"] == name && d.fields["version"] == version && d.fields["source"] == source
    ensures ("url" in d.fields <==> Truthy(url)) && ("method" in d.fields <==> Truthy(how))
  {
    var fields := map["name" := name, "version" := version, "source" := source];
    var fields := if Truthy(url) then fields["url" := url] else fields;
    var fields := if Truthy(how) then fields["method" := how] else fields;
    Detector(PyStr(source) + "/" + PyStr(name) + "/" + PyStr(version), fields)
  }

  /** The older constructor builds exactly the detector the newer one
      builds from the same arguments, only taken in another order. */
  lemma LegacyDetectorAgrees(name: Value, version: Value, source: Value, url: Value, how: Value)
    ensures NewLegacyDetector(name, version, source, url, how) == NewDetector(source, name, version, url, how)
  {
    var a := NewLegacyDetector(name, version, source, url, how);
    var b := NewDetector(source, name, version, url, how);
    assert a.fields.Keys == b.fields.Keys;
    forall k: string | k in a.fields ensures a.fields[k] == b.fields[k] {}
  }

  // -------------------------------------------------------------------
  // The registry: numbers from `add_detector`, strings from a load

  /** A key of `detectors`: the number `add_detector` hands out, or the
      string a loaded detector list had as its key. */
  datatype Key = Num(n: int) | Text(s: string)

  /** The key as stored in an entity's `detector` field. */
  function KeyValue(k: Key): (v: Value)
    ensures k.Num? ==> v == Int(k.n)
    ensures k.Text? ==> v == Str(k.s)
  {
    match k
    case Num(n) => Int(n)
    case Text(s) => Str(s)
  }

  /** The key as the JSON dump writes it (object keys are strings). */
  function KeyName(k: Key): (s: string)
    ensures k.Text? ==> s == k.s
    ensures k.Num? ==> s == IntToString(k.n)
  {
    match k
    case Num(n) => IntToString(n)
    case Text(s) => s
  }

  /** `detector_map` indexes `detectors` by id. */
  predicate KeyIndex(ds: map<Key, Detector>, idx: map<string, Key>)
  {
    (forall id :: id in idx ==> idx[id] in ds && ds[idx[id]].id == id)
    && forall k :: k in ds ==> ds[k].id in idx
  }

  /** Numbered keys never exceed the registry size, so the next number is
      always free. */
  predicate NumbersBelow(ds: map<Key, Detector>)
  {
    forall k :: k in ds && k.Num? ==> 1 <= k.n <= |ds|
  }

  /** No detector id is registered twice. */
  predicate DistinctIds(ds: map<Key, Detector>)
  {
    forall j, k :: j in ds && k in ds && ds[j].id == ds[k].id ==> j == k
  }

  /** `add_detector` on the registry: a known id gives its key back; a new
      one is stored under the number |detectors| + 1. */
  function LegacyAddSpec(ds: map<Key, Detector>, idx: map<string, Key>, d: Detector)
    : (r: (map<Key, Detector>, map<string, Key>, Key))
    ensures r.1.Keys == idx.Keys + {d.id} && r.1[d.id] == r.2
    ensures d.id in idx ==> r.0 == ds && r.1 == idx
    ensures d.id !in idx ==> r.2 == Num(|ds| + 1) && r.0 == ds[r.2 := d] && r.1 == idx[d.id := r.2]
  {
    if d.id in idx then (ds, idx, idx[d.id])
    else
      var num := Num(|ds| + 1);
      (ds[num := d], idx[d.id := num], num)
  }

  /** Adding a detector keeps the index and the numbering; the key returned
      is registered under the detector's id; a known id changes nothing and
      a new one takes the next number and adds one entry. */
  lemma LegacyAddKeeps(ds: map<Key, Detector>, idx: map<string, Key>, d: Detector)
    requires KeyIndex(ds, idx) && NumbersBelow(ds)
    ensures var (ds2, idx2, k) := LegacyAddSpec(ds, idx, d);
      KeyIndex(ds2, idx2) && NumbersBelow(ds2) && k in ds2 && ds2[k].id == d.id
      && (d.id in idx ==> ds2 == ds && idx2 == idx)
      && (d.id !in idx ==> k == Num(|ds| + 1) && ds2 == ds[k := d] && |ds2| == |ds| + 1)
  {
    if d.id !in idx {
      LegacyAddNew(ds, idx, d);
    }
  }

  /** A new id stored under the next number keeps the index and the
      numbering. */
  lemma LegacyAddNew(ds: map<Key, Detector>, idx: map<string, Key>, d: Detector)
    requires KeyIndex(ds, idx) && NumbersBelow(ds) && d.id !in idx
    ensures Num(|ds| + 1) !in ds
    ensures var ds2 := ds[Num(|ds| + 1) := d];
      KeyIndex(ds2, idx[d.id := Num(|ds| + 1)]) && NumbersBelow(ds2) && |ds2| == |ds| + 1
  {
    var num := Num(|ds| + 1);
    assert num !in ds;
    var ds2 := ds[num := d];
    var idx2 := idx[d.id := num];
    assert ds2.Keys == ds.Keys + {num};
    assert |ds2| == |ds| + 1;
    forall k | k in ds2 && k.Num? ensures 1 <= k.n <= |ds2| {
      if k != num {
        assert k in ds;
      }
    }
    forall id | id in idx2 ensures idx2[id] in ds2 && ds2[idx2[id]].id == id {
      if id != d.id {
        assert idx[id] in ds && idx[id] != num;
      }
    }
    forall k | k in ds2 ensures ds2[k].id in idx2 {
      if k != num {
        assert ds[k].id in idx;
      }
    }
  }

  /** Adding a detector registers no id twice if none was. */
  lemma LegacyAddDistinct(ds: map<Key, Detector>, idx: map<string, Key>, d: Detector)
    requires KeyIndex(ds, idx) && NumbersBelow(ds) && DistinctIds(ds)
    ensures DistinctIds(LegacyAddSpec(ds, idx, d).0)
  {
    if d.id !in idx {
      forall k | k in ds ensures ds[k].id != d.id {}
      assert Num(|ds| + 1) !in ds;
    }
  }

  /** Adding the same detector again returns the same key and changes
      nothing. */
  lemma LegacyAddIdempotent(ds: map<Key, Detector>, idx: map<string, Key>, d: Detector)
    requires KeyIndex(ds, idx) && NumbersBelow(ds)
    ensures var (ds2, idx2, k) := LegacyAddSpec(ds, idx, d);
      LegacyAddSpec(ds2, idx2, d) == (ds2, idx2, k)
  {
    LegacyAddKeeps(ds, idx, d);
  }

  // -------------------------------------------------------------------
  // The entity list

  /** An element of `pii`: an entity added with `add`, or a plain parsed
      value a load put there. */
  datatype Element = Built(e: Entity) | Raw(v: Value)

  /** What the JSON encoder writes for an element: an entity's `asdict`,
      a plain value as it is. */
  function Encoded(item: Element): (r: Result<Value>)
    ensures item.Raw? ==> r == Ok(item.v)
    ensures item.Built? && AsDict(item.e).Ok? ==> r == Ok(Dict(AsDict(item.e).value))
    ensures item.Built? && AsDict(item.e).Err? ==> r == Err(AsDict(item.e).error)
  {
    match item
    case Raw(v) => Ok(v)
    case Built(e) =>
      match AsDict(e)
      case Ok(d) => Ok(Dict(d))
      case Err(err) => Err(err)
  }

  /** The encoded elements, in order; the first one that fails stops. */
  function EncodedItems(items: seq<Element>): (r: Result<seq<Value>>)
    ensures r.Ok? <==> forall j :: 0 <= j < |items| ==> Encoded(items[j]).Ok?
    ensures r.Ok? ==> |r.value| == |items| && forall j :: 0 <= j < |items| ==> Encoded(items[j]) == Ok(r.value[j])
  {
    MapResult(items, Encoded)
  }

  // -------------------------------------------------------------------
  // The header and the dump

  /** The dumped detector list: each detector's fields under its key's
      name (JSON writes a number key as its decimal string). */
  function LegacyDetectorsDict(ds: map<Key, Detector>): map<string, Value>
  {
    NamedPart(ds) + DetectorsDict(NumberedPart(ds))
  }

  /** The detectors registered under numbers. */
  function NumberedPart(ds: map<Key, Detector>): (r: map<int, Detector>)
    ensures forall n :: n in r <==> Num(n) in ds
    ensures forall n :: n in r ==> r[n] == ds[Num(n)]
  {
    map k | k in ds && k.Num? :: k.n := ds[k]
  }

  /** The detectors registered under names. */
  function NamedPart(ds: map<Key, Detector>): (r: map<string, Value>)
    ensures forall s :: s in r <==> Text(s) in ds
    ensures forall s :: s in r ==> r[s] == Dict(ds[Text(s)].fields)
  {
    map k | k in ds && k.Text? :: k.s := Dict(ds[k].fields)
  }

  /** A registry of numbered detectors only (one that was never loaded) is
      dumped as the newer collection dumps its registry. */
  lemma NumberedDetectorsDict(ds: map<Key, Detector>)
    requires forall k :: k in ds ==> k.Num?
    ensures LegacyDetectorsDict(ds) == DetectorsDict(NumberedPart(ds))
  {
    var texts := NamedPart(ds);
    var nums := DetectorsDict(NumberedPart(ds));
    var r := texts + nums;
    forall s | s in r ensures s in nums && r[s] == nums[s] {
      assert s !in texts;
    }
    forall s | s in nums ensures s in r {}
    SameDict(r, nums);
  }

  lemma SameDict(a: map<string, Value>, b: map<string, Value>)
    requires forall s :: s in a ==> s in b && a[s] == b[s]
    requires forall s :: s in b ==> s in a
    ensures a == b
  {
    forall s | s in a ensures s in b && a[s] == b[s] {}
    forall s | s in b ensures s in a {}
  }

  /** A single numbered detector is dumped under its number's string. */
  lemma SingleDetectorsDict(n: int, d: Detector)
    ensures DetectorsDict(map[n := d]) == map[IntToString(n) := Dict(d.fields)]
  {
    var r := DetectorsDict(map[n := d]);
    var m := map[IntToString(n) := Dict(d.fields)];
    forall s | s in r ensures s in m && r[s] == m[s] {
      assert ParseKey(s).value == n;
    }
    SameDict(r, m);
  }

  /** A single dumped detector is loaded back under its name. */
  lemma SingleLoaded(s: string, d: Detector)
    requires WellFormed(d)
    ensures LegacyLoaded(Dict(map[s := Dict(d.fields)])) == Ok(map[Text(s) := d])
  {
    DetectorKwargsRoundTrip(d);
    var fields := map[s := Dict(d.fields)];
    var r := LegacyLoaded(Dict(fields));
    assert r.Ok?;
    var m := map[Text(s) := d];
    forall k | k in r.value ensures k in m && r.value[k] == m[k] {
      assert k.Text? && k.s in fields;
    }
    forall k | k in m ensures k in r.value {}
    SameRegistry(r.value, m);
  }

  lemma SameRegistry(a: map<Key, Detector>, b: map<Key, Detector>)
    requires forall k :: k in a ==> k in b && a[k] == b[k]
    requires forall k :: k in b ==> k in a
    ensures a == b
  {
    forall k | k in a ensures k in b && a[k] == b[k] {}
    forall k | k in b ensures k in a {}
  }

  /** A single numbered detector is its registry's whole numbered part. */
  lemma SingleNumberedPart(n: int, d: Detector)
    ensures NumberedPart(map[Num(n) := d]) == map[n := d]
  {
    var r := NumberedPart(map[Num(n) := d]);
    var m := map[n := d];
    forall j | j in r ensures j in m && r[j] == m[j] {}
    forall j | j in m ensures j in r {}
    assert r.Keys == m.Keys;
  }

  /** The header `dump` writes: the creation time, the format tags and the
      detector list. */
  function LegacyHeader(date: Value, fmt: string, version: Value, ds: map<Key, Detector>): map<string, Value>
  {
    map["date" := date, "format" := Str(fmt), "format_version" := version,
        "detectors" := Dict(LegacyDetectorsDict(ds))]
  }

  /** `dump`: `ndjson` gives the header line and one line per element,
      `json` a document with `metadata` and `pii_list`; any other format is
      an InvArgException. */
  function LegacyDumpSpec(header: map<string, Value>, pii: seq<Element>, format: string): (r: Result<Dumped>)
    ensures format != "ndjson" && format != "json" ==> r == Err(InvArg)
    ensures format == "ndjson" || format == "json" ==> (r.Ok? <==> EncodedItems(pii).Ok?)
    ensures r.Ok? && format == "ndjson" ==> r.value == Lines([Dict(header)] + EncodedItems(pii).value)
    ensures r.Ok? && format == "json" ==>
      r.value == Document(Dict(map["metadata" := Dict(header), "pii_list" := List(EncodedItems(pii).value)]))
  {
    if format == "ndjson" then
      var lines :- EncodedItems(pii);
      Ok(Lines([Dict(header)] + lines))
    else if format == "json" then
      var lines :- EncodedItems(pii);
      Ok(Document(Dict(map["metadata" := Dict(header), "pii_list" := List(lines)])))
    else Err(InvArg)
  }

  /** `check_format`: the `format` tag, then the `format_version` tag, must
      be the expected ones (an absent tag reads as None); a header that is
      not a dict has no `get`. */
  function LegacyCheckFormat(meta: Value, fmt: string, version: Value): (r: Result<()>)
    ensures r.Ok? <==> meta.Dict? && "format" in meta.fields && meta.fields["format"] == Str(fmt)
                       && Get(meta.fields, "format_version", Null) == version
    ensures !meta.Dict? ==> r == Err(PyError(AttributeError))
    ensures meta.Dict? && r.Err? ==> r.error == InvArg
  {
    if !meta.Dict? then Err(PyError(AttributeError))
    else if Get(meta.fields, "format", Null) != Str(fmt) then Err(InvArg)
    else if Get(meta.fields, "format_version", Null) != version then Err(InvArg)
    else Ok(())
  }

  /** The header `dump` writes passes `check_format` with the same tags. */
  lemma DumpedHeaderChecks(date: Value, fmt: string, version: Value, ds: map<Key, Detector>)
    ensures LegacyCheckFormat(Dict(LegacyHeader(date, fmt, version, ds)), fmt, version) == Ok(())
  {
  }

  // -------------------------------------------------------------------
  // Loading

  /** `_load_detectors`, first half: `{k: PiiDetector(**v)}`. The keys stay
      the strings they are; a list that is not a dict has no `items`, and an
      entry the constructor refuses is its TypeError. */
  function LegacyLoaded(dets: Value): (r: Result<map<Key, Detector>>)
    ensures !dets.Dict? ==> r == Err(PyError(AttributeError))
    ensures dets.Dict? ==> (r.Ok? <==> forall s :: s in dets.fields ==> DetectorFromKwargs(dets.fields[s]).Ok?)
    ensures dets.Dict? && r.Err? ==> r.error == PyError(TypeError)
    ensures r.Ok? ==> forall k :: k in r.value ==> k.Text?
    ensures r.Ok? ==> forall s :: s in dets.fields <==> Text(s) in r.value
    ensures r.Ok? ==> forall s :: s in dets.fields ==> Ok(r.value[Text(s)]) == DetectorFromKwargs(dets.fields[s])
  {
    if !dets.Dict? then Err(PyError(AttributeError))
    else if !(forall s :: s in dets.fields ==> DetectorFromKwargs(dets.fields[s]).Ok?) then Err(PyError(TypeError))
    else
      Ok(TextKeyed(dets.fields))
  }

  /** The registry the legacy list builds: each name keys its detector. */
  function TextKeyed(m: map<string, Value>): (r: map<Key, Detector>)
    requires forall s :: s in m ==> DetectorFromKwargs(m[s]).Ok?
    ensures forall k :: k in r ==> k.Text? && k.s in m
    ensures forall s :: s in m ==> Text(s) in r && r[Text(s)] == DetectorFromKwargs(m[s]).value
  {
    map s | s in m :: Text(s) := DetectorFromKwargs(m[s]).value
  }

  /** The outcome of a load: the registry and element list it put in place
      (None: left as they were) and its result. */
  datatype LegacyLoadOutcome = LegacyLoadOutcome(detectors: Option<map<Key, Detector>>, pii: Option<seq<Element>>, result: Result<()>)

  function LoadFailed(e: Error): LegacyLoadOutcome
  {
    LegacyLoadOutcome(None, None, Err(e))
  }

  /** Once the header passed the check: its detector list, then the
      elements. */
  function LegacyAfterHeader(meta: Value, pii: Result<seq<Element>>): (o: LegacyLoadOutcome)
    ensures o.result.Ok? ==> o.detectors.Some? && o.pii.Some?
    ensures o.pii.Some? ==> pii == Ok(o.pii.value)
    ensures o.detectors.Some? ==> Item(meta, "detectors").Ok? && LegacyLoaded(Item(meta, "detectors").value) == Ok(o.detectors.value)
  {
    match Item(meta, "detectors")
    case Err(e) => LoadFailed(e)
    case Ok(dets) =>
      match LegacyLoaded(dets)
      case Err(e) => LoadFailed(e)
      case Ok(ds) =>
        match pii
        case Err(e) => LegacyLoadOutcome(Some(ds), None, Err(e))
        case Ok(items) => LegacyLoadOutcome(Some(ds), Some(items), Ok(()))
  }

  /** `load_json`: the text must parse (a JSONDecodeError is a ValueError);
      then `metadata`, its check, the detectors, and `pii_list` stored as
      the list of parsed values it is. */
  function LegacyJsonLoad(doc: Parsed, fmt: string, version: Value): (o: LegacyLoadOutcome)
    ensures doc.Malformed? ==> o == LoadFailed(PyError(ValueError))
    ensures o.result.Ok? ==> Item(doc.v, "metadata").Ok? && LegacyCheckFormat(Item(doc.v, "metadata").value, fmt, version).Ok?
    ensures o.pii.Some? ==> Item(doc.v, "pii_list") == Ok(List(RawValues(o.pii.value)))
  {
    if doc.Malformed? then LoadFailed(PyError(ValueError))
    else
      match Item(doc.v, "metadata")
      case Err(e) => LoadFailed(e)
      case Ok(meta) =>
        match LegacyCheckFormat(meta, fmt, version)
        case Err(e) => LoadFailed(e)
        case Ok(_) =>
          LegacyAfterHeader(meta, match Item(doc.v, "pii_list")
                                  case Err(e) => Err(e)
                                  case Ok(v) =>
                                    if v.List? then RawValuesOfItems(v.items); Ok(RawItems(v.items))
                                    else Err(PyError(TypeError)))
  }

  /** Plain values as elements. */
  function RawItems(vs: seq<Value>): (r: seq<Element>)
    ensures |r| == |vs| && forall j :: 0 <= j < |vs| ==> r[j] == Raw(vs[j])
  {
    if |vs| == 0 then [] else [Raw(vs[0])] + RawItems(vs[1..])
  }

  /** The values of plain elements (entities give None). */
  function RawValues(items: seq<Element>): (r: seq<Value>)
    ensures |r| == |items| && forall j :: 0 <= j < |items| && items[j].Raw? ==> r[j] == items[j].v
  {
    if |items| == 0 then [] else [if items[0].Raw? then items[0].v else Null] + RawValues(items[1..])
  }

  /** Plain elements read back to the values they were made from. */
  lemma {:induction false} RawValuesOfItems(vs: seq<Value>)
    ensures RawValues(RawItems(vs)) == vs
  {
    if |vs| > 0 {
      RawValuesOfItems(vs[1..]);
      assert RawItems(vs)[1..] == RawItems(vs[1..]);
    }
  }

  /** The lines after the header, each parsed; a line that does not parse
      is a ValueError. */
  function LegacyLines(lines: seq<Parsed>): (r: Result<seq<Element>>)
    ensures r.Ok? <==> forall j :: 0 <= j < |lines| ==> lines[j].Json?
    ensures r.Ok? ==> r.value == RawItems(ParsedValues(lines))
    ensures r.Err? ==> r.error == PyError(ValueError)
  {
    if forall j :: 0 <= j < |lines| ==> lines[j].Json? then Ok(RawItems(ParsedValues(lines)))
    else Err(PyError(ValueError))
  }

  /** The values of parsed lines (a malformed line gives None). */
  function ParsedValues(lines: seq<Parsed>): (r: seq<Value>)
    ensures |r| == |lines| && forall j :: 0 <= j < |lines| && lines[j].Json? ==> r[j] == lines[j].v
  {
    if |lines| == 0 then [] else [if lines[0].Json? then lines[0].v else Null] + ParsedValues(lines[1..])
  }

  /** `load_ndjson`: the first line (none at all is the StopIteration of
      `next`) is the header; each further line is one element. */
  function LegacyNdjsonLoad(lines: seq<Parsed>, fmt: string, version: Value): (o: LegacyLoadOutcome)
    ensures |lines| == 0 ==> o == LoadFailed(PyError(StopIteration))
    ensures o.result.Ok? ==> lines[0].Json? && LegacyCheckFormat(lines[0].v, fmt, version).Ok?
    ensures o.result.Ok? ==> o.pii.Some? && |o.pii.value| == |lines| - 1
  {
    if |lines| == 0 then LoadFailed(PyError(StopIteration))
    else if lines[0].Malformed? then LoadFailed(PyError(ValueError))
    else
      match LegacyCheckFormat(lines[0].v, fmt, version)
      case Err(e) => LoadFailed(e)
      case Ok(_) => LegacyAfterHeader(lines[0].v, LegacyLines(lines[1..]))
  }

  // -------------------------------------------------------------------
  // Dump, then load

  /** The detector list a dump writes loads back: every entry is the dict
      form of a well-formed detector. In a registry that was never loaded,
      the detector numbered n comes back under the string of n. */
  lemma LegacyDetectorsReload(ds: map<Key, Detector>)
    requires forall k :: k in ds ==> WellFormed(ds[k])
    ensures LegacyLoaded(Dict(LegacyDetectorsDict(ds))).Ok?
    ensures (forall k :: k in ds ==> k.Num?) ==>
      var r := LegacyLoaded(Dict(LegacyDetectorsDict(ds))).value;
      forall n :: Num(n) in ds ==> Text(IntToString(n)) in r && r[Text(IntToString(n))] == ds[Num(n)]
  {
    var texts := NamedPart(ds);
    var numbered := NumberedPart(ds);
    var nums := DetectorsDict(numbered);
    var m := texts + nums;
    forall s | s in m ensures DetectorFromKwargs(m[s]).Ok? {
      if s in nums {
        var n := ParseKey(s).value;
        assert s == IntToString(n);
        DetectorKwargsRoundTrip(numbered[n]);
      } else {
        DetectorKwargsRoundTrip(ds[Text(s)]);
      }
    }
    forall n | Num(n) in ds ensures IntToString(n) in m && m[IntToString(n)] == Dict(ds[Num(n)].fields) {
      assert n in numbered;
    }
    forall n | Num(n) in ds ensures DetectorFromKwargs(Dict(ds[Num(n)].fields)) == Ok(ds[Num(n)]) {
      DetectorKwargsRoundTrip(ds[Num(n)]);
    }
  }

  /** A header that passes the check and whose detector list loads, with
      the elements as they were encoded, loads without error. */
  lemma LegacyHeaderLoads(h: map<string, Value>, vs: seq<Value>)
    requires "detectors" in h && LegacyLoaded(h["detectors"]).Ok?
    ensures LegacyAfterHeader(Dict(h), Ok(RawItems(vs)))
      == LegacyLoadOutcome(Some(LegacyLoaded(h["detectors"]).value), Some(RawItems(vs)), Ok(()))
  {
  }

  /** A JSON dump loads back: the detectors as the reload gives them, and
      each element as the value it was encoded to. */
  lemma LegacyJsonRoundTrip(date: Value, fmt: string, version: Value, ds: map<Key, Detector>, pii: seq<Element>)
    requires forall k :: k in ds ==> WellFormed(ds[k])
    requires EncodedItems(pii).Ok?
    ensures var h := LegacyHeader(date, fmt, version, ds);
      var doc := LegacyDumpSpec(h, pii, "json").value.doc;
      var o := LegacyJsonLoad(Json(doc), fmt, version);
      o.result.Ok? && o.pii == Some(RawItems(EncodedItems(pii).value))
      && o.detectors.Some? && LegacyLoaded(Dict(LegacyDetectorsDict(ds))) == Ok(o.detectors.value)
  {
    var h := LegacyHeader(date, fmt, version, ds);
    var vs := EncodedItems(pii).value;
    assert LegacyDumpSpec(h, pii, "json").value.doc == Dict(map["metadata" := Dict(h), "pii_list" := List(vs)]);
    DumpedHeaderChecks(date, fmt, version, ds);
    LegacyDetectorsReload(ds);
    assert h["detectors"] == Dict(LegacyDetectorsDict(ds));
    LegacyJsonAccepted(h, vs, fmt, version);
    LegacyHeaderLoads(h, vs);
  }

  lemma LegacyJsonAccepted(h: map<string, Value>, vs: seq<Value>, fmt: string, version: Value)
    requires LegacyCheckFormat(Dict(h), fmt, version).Ok?
    ensures LegacyJsonLoad(Json(Dict(map["metadata" := Dict(h), "pii_list" := List(vs)])), fmt, version)
      == LegacyAfterHeader(Dict(h), Ok(RawItems(vs)))
  {
  }

  /** An NDJSON dump loads back the same way, each line after the header
      one element. */
  lemma LegacyNdjsonRoundTrip(date: Value, fmt: string, version: Value, ds: map<Key, Detector>, pii: seq<Element>)
    requires forall k :: k in ds ==> WellFormed(ds[k])
    requires EncodedItems(pii).Ok?
    ensures var h := LegacyHeader(date, fmt, version, ds);
      var lines := LegacyDumpSpec(h, pii, "ndjson").value.records;
      var o := LegacyNdjsonLoad(AsLines(lines), fmt, version);
      o.result.Ok? && o.pii == Some(RawItems(EncodedItems(pii).value))
      && o.detectors.Some? && LegacyLoaded(Dict(LegacyDetectorsDict(ds))) == Ok(o.detectors.value)
  {
    var h := LegacyHeader(date, fmt, version, ds);
    var vs := EncodedItems(pii).value;
    DumpedHeaderChecks(date, fmt, version, ds);
    LegacyDetectorsReload(ds);
    LegacyNdjsonAccepted(h, vs, fmt, version);
    LegacyHeaderLoads(h, vs);
  }

  lemma LegacyNdjsonAccepted(h: map<string, Value>, vs: seq<Value>, fmt: string, version: Value)
    requires LegacyCheckFormat(Dict(h), fmt, version).Ok?
    ensures LegacyNdjsonLoad(AsLines([Dict(h)] + vs), fmt, version) == LegacyAfterHeader(Dict(h), Ok(RawItems(vs)))
  {
    var lines := AsLines([Dict(h)] + vs);
    assert lines[1..] == AsLines(vs);
    assert ParsedValues(AsLines(vs)) == vs;
  }

  // -------------------------------------------------------------------
  // The collection and its loader

  /** A set of keys that is not empty has an element. */
  lemma SomeKey(s: set<Key>)
    requires s != {}
    ensures exists k :: k in s
  {
    if forall k :: k !in s {
      assert false;
    }
  }

  /** The second half of `_load_detectors`: `detector_map` as id -> key,
      built one detector at a time. */
  method KeyIndexOf(ds: map<Key, Detector>) returns (idx: map<string, Key>)
    ensures KeyIndex(ds, idx)
  {
    idx := map[];
    var todo := ds.Keys;
    ghost var done: set<Key> := {};
    while todo != {}
      invariant todo == ds.Keys - done && done <= ds.Keys
      invariant forall id :: id in idx ==> idx[id] in done && ds[idx[id]].id == id
      invariant forall k :: k in done ==> ds[k].id in idx
      decreases todo
    {
      SomeKey(todo);
      var k :| k in todo;
      idx := idx[ds[k].id := k];
      todo := todo - {k};
      done := done + {k};
    }
  }

  /** The dump of the elements under a header: the NDJSON form is written
      one element at a time after the header line. */
  method DumpWith(header: map<string, Value>, pii: seq<Element>, format: string) returns (r: Result<Dumped>)
    ensures r == LegacyDumpSpec(header, pii, format)
  {
    if format == "ndjson" {
      var lines := [Dict(header)];
      for i := 0 to |pii|
        invariant |lines| == i + 1 && lines[0] == Dict(header)
        invariant forall j :: 0 <= j < i ==> Encoded(pii[j]) == Ok(lines[j + 1])
      {
        var enc := Encoded(pii[i]);
        if enc.Err? {
          MapResultFirstError(pii, Encoded, i);
          return Err(enc.error);
        }
        lines := lines + [enc.value];
      }
      assert lines == [Dict(header)] + EncodedItems(pii).value;
      r := Ok(Lines(lines));
    } else if format == "json" {
      var items := EncodedItems(pii);
      if items.Err? {
        return Err(items.error);
      }
      r := Ok(Document(Dict(map["metadata" := Dict(header), "pii_list" := List(items.value)])));
    } else {
      r := Err(InvArg);
    }
  }

  class LegacyPiiCollection {
    var defaults: map<string, Value>
    /** `detectors`: key -> detector. */
    var detectors: map<Key, Detector>
    /** `detector_map`: detector id -> key. */
    var detectorMap: map<string, Key>
    var pii: seq<Element>

    /** The registry is indexed and its next number is free. */
    ghost predicate Valid()
      reads this
    {
      KeyIndex(detectors, detectorMap) && NumbersBelow(detectors)
    }

    /** The collection after a load with outcome `o`. */
    twostate predicate Applied(o: LegacyLoadOutcome)
      reads this
    {
      (o.detectors.Some? ==> detectors == o.detectors.value && KeyIndex(detectors, detectorMap))
      && (o.detectors.None? ==> detectors == old(detectors) && detectorMap == old(detectorMap))
      && pii == (if o.pii.Some? then o.pii.value else old(pii))
      && defaults == old(defaults)
    }

    /** A new, empty collection with the given default language and
        document id. */
    constructor (lang: Value, docid: Value)
      ensures Valid()
      ensures defaults == DefaultsOf(lang, docid)
      ensures detectors == map[] && detectorMap == map[] && pii == []
    {
      defaults := DefaultsOf(lang, docid);
      detectors := map[];
      detectorMap := map[];
      pii := [];
    }

    /** `__len__`: the number of elements. */
    function Size(): (n: nat)
      reads this
      ensures n == |pii|
    {
      |pii|
    }

    /** `add_detector`: register the detector (if new) and return its key. */
    method AddDetector(d: Detector) returns (k: Key)
      modifies this
      ensures (detectors, detectorMap, k) == LegacyAddSpec(old(detectors), old(detectorMap), d)
      ensures old(Valid()) ==> Valid() && k in detectors && detectors[k].id == d.id
      ensures defaults == old(defaults) && pii == old(pii)
    {
      if d.id !in detectorMap {
        var num := Num(|detectors| + 1);
        detectors := detectors[num := d];
        detectorMap := detectorMap[d.id := num];
      }
      k := detectorMap[d.id];
      if old(Valid()) {
        LegacyAddKeeps(old(detectors), old(detectorMap), d);
      }
    }

    /** `add`: record the detector's key in the entity (when a detector is
        given), fill the defaults the entity does not set, and append it. */
    method Add(e: Entity, detector: Option<Detector>)
      modifies this
      ensures detector.None? ==> detectors == old(detectors) && detectorMap == old(detectorMap)
      ensures detector.Some? ==>
        var (ds, idx, k) := LegacyAddSpec(old(detectors), old(detectorMap), detector.value);
        detectors == ds && detectorMap == idx
        && pii == old(pii) + [Built(WithDefaults(e.(fields := e.fields["detector" := KeyValue(k)]), defaults))]
      ensures detector.None? ==> pii == old(pii) + [Built(WithDefaults(e, defaults))]
      ensures old(Valid()) ==> Valid()
      ensures defaults == old(defaults) && Size() == old(Size()) + 1
    {
      var ent := e;
      if detector.Some? {
        var k := AddDetector(detector.value);
        ent := ent.(fields := ent.fields["detector" := KeyValue(k)]);
      }
      ent := FillDefaults(ent, defaults);
      pii := pii + [Built(ent)];
    }

    /** `dump`, given the creation time and the format tags. */
    method Dump(format: string, date: Value, fmt: string, version: Value) returns (r: Result<Dumped>)
      ensures r == LegacyDumpSpec(LegacyHeader(date, fmt, version, detectors), pii, format)
    {
      r := DumpWith(LegacyHeader(date, fmt, version, detectors), pii, format);
    }

    /** `_load_detectors`, given the registry the list gives: the registry,
        then its index. */
    method LoadDetectors(loaded: Result<map<Key, Detector>>) returns (r: Result<()>)
      modifies this
      ensures r.Err? ==> loaded.Err? && r.error == loaded.error
      ensures r.Err? ==> detectors == old(detectors) && detectorMap == old(detectorMap)
      ensures r.Ok? ==> loaded.Ok? && detectors == loaded.value && KeyIndex(detectors, detectorMap)
      ensures pii == old(pii) && defaults == old(defaults)
    {
      if loaded.Err? {
        return Err(loaded.error);
      }
      var idx := KeyIndexOf(loaded.value);
      detectors := loaded.value;
      detectorMap := idx;
      r := Ok(());
    }

    /** The common tail of both loads: the detectors, then the elements. */
    method LoadAfterHeader(meta: Value, items: Result<seq<Element>>) returns (r: Result<()>)
      modifies this
      ensures r == LegacyAfterHeader(meta, items).result && Applied(LegacyAfterHeader(meta, items))
    {
      var dets := Item(meta, "detectors");
      if dets.Err? {
        return Err(dets.error);
      }
      r := LoadDetectors(LegacyLoaded(dets.value));
      if r.Err? {
        return;
      }
      if items.Err? {
        return Err(items.error);
      }
      pii := items.value;
      r := Ok(());
    }

    /** `load_json`, given the parsed file and the expected format tags. */
    method LoadJson(doc: Parsed, fmt: string, version: Value) returns (r: Result<()>)
      modifies this
      ensures r == LegacyJsonLoad(doc, fmt, version).result && Applied(LegacyJsonLoad(doc, fmt, version))
    {
      if doc.Malformed? {
        return Err(PyError(ValueError));
      }
      var meta := Item(doc.v, "metadata");
      if meta.Err? {
        return Err(meta.error);
      }
      var ok := LegacyCheckFormat(meta.value, fmt, version);
      if ok.Err? {
        return Err(ok.error);
      }
      var list := Item(doc.v, "pii_list");
      var items: Result<seq<Element>> := if list.Err? then Err(list.error)
        else if list.value.List? then Ok(RawItems(list.value.items)) else Err(PyError(TypeError));
      r := LoadAfterHeader(meta.value, items);
    }

    /** `load_ndjson`, given the parsed lines and the expected format tags. */
    method LoadNdjson(lines: seq<Parsed>, fmt: string, version: Value) returns (r: Result<()>)
      modifies this
      ensures r == LegacyNdjsonLoad(lines, fmt, version).result && Applied(LegacyNdjsonLoad(lines, fmt, version))
    {
      if |lines| == 0 {
        return Err(PyError(StopIteration));
      }
      if lines[0].Malformed? {
        return Err(PyError(ValueError));
      }
      var ok := LegacyCheckFormat(lines[0].v, fmt, version);
      if ok.Err? {
        return Err(ok.error);
      }
      r := LoadAfterHeader(lines[0].v, LegacyLines(lines[1..]));
    }
  }

  /** A loaded registry is well kept: its keys are all strings, so the
      numbers `add_detector` hands out next are free. */
  lemma LoadedValid(dets: Value, idx: map<string, Key>)
    requires LegacyLoaded(dets).Ok? && KeyIndex(LegacyLoaded(dets).value, idx)
    ensures NumbersBelow(LegacyLoaded(dets).value)
  {
  }

  // -------------------------------------------------------------------
  // Default filling

  /** As written, `add` tests only the entity's `fields` for a default's
      key, so a collection's default language replaces an entity's own
      language in the element it stores and dumps. */
  lemma LegacyDefaultLangOverrides()
    ensures Encoded(Built(SpanishEntity)).Ok? && Encoded(Built(SpanishEntity)).value.fields["lang"] == Str("es")
    ensures var added := Built(DefaultsAsWritten(SpanishEntity, DefaultsOf(Str("pt"), Null)));
      Encoded(added).Ok? && Encoded(added).value.fields["lang"] == Str("pt")
  {
    assert DefaultsOf(Str("pt"), Null) == map["lang" := Str("pt")];
    DefaultLangOverrides();
  }

  /** Corrected, the element `add` stores keeps every entry of the
      entity's dict form, and a default appears exactly where that form had
      no entry. */
  lemma LegacyDefaultsFillOnlyMissing(e: Entity, lang: Value, docid: Value, k: string)
    requires AsDict(e).Ok? && k != "start" && k != "end"
    ensures Encoded(Built(WithDefaults(e, DefaultsOf(lang, docid)))).Ok?
    ensures var out := Encoded(Built(WithDefaults(e, DefaultsOf(lang, docid)))).value.fields;
      && (k in AsDict(e).value ==> out[k] == AsDict(e).value[k])
      && (k !in AsDict(e).value && k == "lang" && Truthy(lang) ==> out[k] == lang)
      && (k !in AsDict(e).value && k == "docid" && Truthy(docid) ==> out[k] == docid)
      && (k in out <==> k in AsDict(e).value || (k == "lang" && Truthy(lang)) || (k == "docid" && Truthy(docid)))
  {
    DefaultsFillOnlyMissing(e, DefaultsOf(lang, docid), k);
  }

  // -------------------------------------------------------------------
  // What a reload does to the detector keys

  const ExampleDetector: Detector := NewDetector(Str("piisa"), Str("regex"), Str("0.1"), Null, Null)

  /** A fresh collection gives its first detector the number 1. */
  lemma ExampleAdded()
    ensures LegacyAddSpec(map[], map[], ExampleDetector) == (map[Num(1) := ExampleDetector], map[ExampleDetector.id := Num(1)], Num(1))
  {
  }

  /** That detector is dumped under "1". */
  lemma ExampleDumped()
    ensures LegacyDetectorsDict(map[Num(1) := ExampleDetector]) == map["1" := Dict(ExampleDetector.fields)]
  {
    var ds := map[Num(1) := ExampleDetector];
    OneToString();
    calc {
      LegacyDetectorsDict(ds);
    == { NumberedDetectorsDict(ds); }
      DetectorsDict(NumberedPart(ds));
    == { SingleNumberedPart(1, ExampleDetector); }
      DetectorsDict(map[1 := ExampleDetector]);
    == { SingleDetectorsDict(1, ExampleDetector); }
      map[IntToString(1) := Dict(ExampleDetector.fields)];
    }
  }

  /** Loading that list keys the detector by the string "1". */
  lemma ExampleLoaded()
    ensures LegacyLoaded(Dict(map["1" := Dict(ExampleDetector.fields)])) == Ok(map[Text("1") := ExampleDetector])
  {
    NewDetectorWellFormed(Str("piisa"), Str("regex"), Str("0.1"), Null, Null);
    SingleLoaded("1", ExampleDetector);
  }

  /** A fresh collection hands out the number 1 for its first detector; once
      dumped and loaded back, the same detector is given the string "1"
      instead, so entities added after a reload record `"detector": "1"`
      where those added before recorded `1`. */
  lemma ReloadTurnsNumberIntoText()
    ensures LegacyAddSpec(map[], map[], ExampleDetector).2 == Num(1)
    ensures var ds := LegacyAddSpec(map[], map[], ExampleDetector).0;
      LegacyLoaded(Dict(LegacyDetectorsDict(ds))) == Ok(map[Text("1") := ExampleDetector])
    ensures LegacyAddSpec(map[Text("1") := ExampleDetector], map[ExampleDetector.id := Text("1")], ExampleDetector).2 == Text("1")
    ensures KeyValue(Text("1")) != KeyValue(Num(1))
  {
    ExampleAdded();
    ExampleDumped();
    ExampleLoaded();
  }
}
