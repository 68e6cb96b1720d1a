// Configuration files (helper/config.py): checking one configuration
// section, reading a module or full configuration from its parsed data,
// merging configurations in order, and the two loading entry points.
// Reading and parsing a file is replaced by its parsed data.

module ConfigFiles {
  import opened Values
  import opened Defs
  import Io

  /** One configuration section, and a configuration: sections by tag. */
  type Section = map<string, Value>
  type Config = map<string, Section>

  /** The part of a format tag before its last ':' (`rsplit(':', 1)[0]`). */
  function Family(s: string): (r: string)
    requires ':' in s
    ensures |r| < |s| && r == s[..|r|] && s[|r|] == ':'
  {
    s[..Io.RFind(s, ':')]
  }

  lemma FamilyOf(f: string, v: string)
    requires ':' !in v
    ensures Family(f + ":" + v) == f
  {
    var s := f + ":" + v;
    assert s[|f|] == ':';
    forall k | |f| < k < |s| ensures s[k] != ':' {
      assert s[k] == v[k - |f| - 1];
    }
    Io.RFindLast(s, ':', |f|);
    assert s[..|f|] == f;
  }

  lemma PrefixHasColon(s: string)
    requires StartsWith(s, FMT_CONFIG_PREFIX)
    ensures ':' in s
  {
    assert s[5] == FMT_CONFIG_PREFIX[5] == ':';
  }

  /** `config_section(data, formats, filename)`: `None` (here `Ok(None)`)
      for a section that the format restriction skips, else the section's
      tag and its data with a default name. `formats` is the set
      `load_config` builds: every entry has a ':'. */
  function ConfigSection(data: Section, formats: set<string>, filename: string): (r: Result<Option<(string, Section)>>)
    requires forall t :: t in formats ==> ':' in t
    ensures !Truthy(Get(data, "format", Null)) ==> r == Err(Config)
    ensures r.Ok? ==> Get(data, "format", Null).Str? && StartsWith(data["format"].s, FMT_CONFIG_PREFIX)
    ensures r.Ok? && r.value.Some? ==> data["format"].s == FMT_CONFIG_PREFIX + r.value.value.0
    ensures r.Ok? && r.value.Some? ==> (|formats| == 0 || data["format"].s in formats)
    ensures r.Ok? && r.value.Some? ==> r.value.value.1 == (if "name" in data then data else data["name" := Str(filename)])
    ensures r.Ok? && r.value.None? ==> |formats| > 0 && data["format"].s !in formats
  {
    var fmt := Get(data, "format", Null);
    if !Truthy(fmt) then Err(Config)
    else if !fmt.Str? then Err(PyError(AttributeError))
    else if !StartsWith(fmt.s, FMT_CONFIG_PREFIX) then Err(Config)
    else if |formats| > 0 && fmt.s !in formats then
      PrefixHasColon(fmt.s);
      if exists t :: t in formats && Family(t) == Family(fmt.s) then Err(Config) else Ok(None)
    else
      assert fmt.s == FMT_CONFIG_PREFIX + fmt.s[|FMT_CONFIG_PREFIX|..];
      Ok(Some((fmt.s[|FMT_CONFIG_PREFIX|..], if "name" in data then data else data["name" := Str(filename)])))
  }

  lemma PrefixedStartsWith(t: string)
    ensures StartsWith(FMT_CONFIG_PREFIX + t, FMT_CONFIG_PREFIX)
  {
    assert (FMT_CONFIG_PREFIX + t)[..|FMT_CONFIG_PREFIX|] == FMT_CONFIG_PREFIX;
  }

  /** Asking for another version of the same format is an error, not a
      skipped section. */
  lemma ConfigSectionVersionClash(name: string, v1: string, v2: string, data: Section, filename: string)
    requires ':' !in v1 && ':' !in v2 && v1 != v2
    requires "format" in data && data["format"] == Str(FMT_CONFIG_PREFIX + name + ":" + v1)
    ensures ConfigSection(data, {FMT_CONFIG_PREFIX + name + ":" + v2}, filename) == Err(Config)
  {
    var f := FMT_CONFIG_PREFIX + name;
    var fmt, t := f + ":" + v1, f + ":" + v2;
    PrefixedStartsWith(name + ":" + v1);
    assert fmt == FMT_CONFIG_PREFIX + (name + ":" + v1);
    assert fmt != t by {
      assert fmt[|f| + 1..] == v1 && t[|f| + 1..] == v2;
    }
    FamilyOf(f, v1);
    FamilyOf(f, v2);
    PrefixHasColon(t);
  }

  /** A section of a format family that was not asked for is skipped. */
  lemma ConfigSectionOtherFamily(name: string, other: string, v1: string, v2: string, data: Section, filename: string)
    requires ':' !in v1 && ':' !in v2 && name != other
    requires "format" in data && data["format"] == Str(FMT_CONFIG_PREFIX + name + ":" + v1)
    ensures ConfigSection(data, {FMT_CONFIG_PREFIX + other + ":" + v2}, filename) == Ok(None)
  {
    var f, g := FMT_CONFIG_PREFIX + name, FMT_CONFIG_PREFIX + other;
    var fmt, t := f + ":" + v1, g + ":" + v2;
    PrefixedStartsWith(name + ":" + v1);
    assert fmt == FMT_CONFIG_PREFIX + (name + ":" + v1);
    FamilyOf(f, v1);
    FamilyOf(g, v2);
    assert f != g by {
      assert f[|FMT_CONFIG_PREFIX|..] == name && g[|FMT_CONFIG_PREFIX|..] == other;
    }
    assert fmt != t;
    PrefixHasColon(t);
  }

  /** `dict(c for c in cfg if c)`: the accepted sections by tag; a later
      section wins over an earlier one with the same tag. */
  function Collect(secs: seq<Option<(string, Section)>>): (r: Config)
    ensures forall tag :: tag in r <==> exists k :: 0 <= k < |secs| && secs[k].Some? && secs[k].value.0 == tag
    ensures |secs| > 0 && secs[|secs| - 1].Some? ==> r[secs[|secs| - 1].value.0] == secs[|secs| - 1].value.1
  {
    if |secs| == 0 then map[]
    else
      var pre := Collect(secs[..|secs| - 1]);
      var last := secs[|secs| - 1];
      var r := if last.Some? then pre[last.value.0 := last.value.1] else pre;
      assert forall k :: 0 <= k < |secs| - 1 ==> secs[..|secs| - 1][k] == secs[k];
      r
  }

  /** The sections of a full configuration, in order; the first failing
      section stops it. */
  function SectionsOf(items: seq<Value>, formats: set<string>, filename: string): (r: Result<seq<Option<(string, Section)>>>)
    requires forall t :: t in formats ==> ':' in t
    ensures r.Ok? ==> |r.value| == |items|
    ensures r.Ok? ==> forall k :: 0 <= k < |items| ==> items[k].Dict? && ConfigSection(items[k].fields, formats, filename).Ok? && r.value[k] == ConfigSection(items[k].fields, formats, filename).value
  {
    if |items| == 0 then Ok([])
    else
      var pre :- SectionsOf(items[..|items| - 1], formats, filename);
      var item := items[|items| - 1];
      var sec :- if item.Dict? then ConfigSection(item.fields, formats, filename) else Err(PyError(AttributeError));
      Ok(pre + [sec])
  }

  /** `read_config_file` on the parsed data of one file: a full
      configuration gives its accepted sections, a module configuration at
      most one. */
  function ReadConfigFile(data: Section, formats: set<string>, filename: string): (r: Result<Config>)
    requires forall t :: t in formats ==> ':' in t
    ensures "format" !in data ==> r == Err(Config)
    ensures r.Ok? && data["format"] != Str(FMT_CONFIG_FULL) ==> |r.value| <= 1
    ensures r.Ok? && data["format"] != Str(FMT_CONFIG_FULL) ==> ConfigSection(data, formats, filename).Ok?
    ensures r.Ok? && data["format"] != Str(FMT_CONFIG_FULL) && ConfigSection(data, formats, filename).value.Some? ==>
      r.value == map[ConfigSection(data, formats, filename).value.value.0 := ConfigSection(data, formats, filename).value.value.1]
  {
    if "format" !in data then Err(Config)
    else if data["format"] == Str(FMT_CONFIG_FULL) then
      var items :- Children(Get(data, "config", List([])));
      var secs :- SectionsOf(items, formats, filename);
      Ok(Collect(secs))
    else
      var sec :- ConfigSection(data, formats, filename);
      assert [sec][..0] == [];
      Ok(Collect([sec]))
  }

  // -------------------------------------------------------------------
  // merge_config

  /** The value a key takes when `v` is merged into a section: a new key is
      copied, a dict shallow-updates a dict, a list extends a list, a
      repeated name becomes a list of names, and any other value replaces
      the old one. Any other combination fails, and the failure is reported
      as a configuration error. */
  function MergeValue(dest: Section, k: string, v: Value): (r: Result<Value>)
    ensures k !in dest ==> r == Ok(v)
    ensures r.Err? ==> r.error == Config
    ensures k in dest && v.Dict? ==> r == (if dest[k].Dict? then Ok(Dict(Update(dest[k].fields, v.fields))) else Err(Config))
    ensures k in dest && v.List? ==> r == (if dest[k].List? then Ok(List(dest[k].items + v.items)) else Err(Config))
    ensures k in dest && !v.Dict? && !v.List? && k == "name" ==>
      r == (if dest[k].Str? then Ok(List([dest[k], v])) else if dest[k].List? then Ok(List(dest[k].items + [v])) else Err(Config))
    ensures k in dest && !v.Dict? && !v.List? && k != "name" ==> r == Ok(v)
  {
    if k !in dest then Ok(v)
    else if v.Dict? then (if dest[k].Dict? then Ok(Dict(Update(dest[k].fields, v.fields))) else Err(Config))
    else if v.List? then (if dest[k].List? then Ok(List(dest[k].items + v.items)) else Err(Config))
    else if k == "name" then
      (if dest[k].Str? then Ok(List([dest[k], v])) else if dest[k].List? then Ok(List(dest[k].items + [v])) else Err(Config))
    else Ok(v)
  }

  /** `out_config[section]` on the defaultdict: a missing section reads as
      an empty one. */
  function Dest(out: Config, s: string): Section
  {
    if s in out then out[s] else map[]
  }

  predicate SectionMerges(dest: Section, config: Section)
  {
    forall k :: k in config ==> MergeValue(dest, k, config[k]).Ok?
  }

  /** Merging one section into its destination. */
  function MergeSectionSpec(dest: Section, config: Section): (r: Result<Section>)
    ensures r.Ok? <==> SectionMerges(dest, config)
    ensures r.Err? ==> r.error == Config
    ensures r.Ok? ==> r.value.Keys == dest.Keys + config.Keys
    ensures r.Ok? ==> forall k :: k in dest && k !in config ==> r.value[k] == dest[k]
    ensures r.Ok? ==> forall k :: k in config ==> r.value[k] == MergeValue(dest, k, config[k]).value
  {
    if SectionMerges(dest, config) then Ok(MergedKeys(dest, config, config.Keys))
    else Err(Config)
  }

  /** The keys in `done` merge without a conflict. */
  predicate KeysMerge(dest: Section, config: Section, done: set<string>)
    requires done <= config.Keys
  {
    forall k :: k in done ==> MergeValue(dest, k, config[k]).Ok?
  }

  /** The section once the keys in `done` are merged. */
  function MergedKeys(dest: Section, config: Section, done: set<string>): Section
    requires done <= config.Keys && KeysMerge(dest, config, done)
  {
    map k | k in dest.Keys + done :: if k in done then MergeValue(dest, k, config[k]).value else dest[k]
  }

  /** Merging one more key sets only that key. */
  lemma KeyStep(dest: Section, config: Section, done: set<string>, k: string)
    requires done <= config.Keys && KeysMerge(dest, config, done)
    requires k in config && k !in done && MergeValue(dest, k, config[k]).Ok?
    ensures KeysMerge(dest, config, done + {k})
    ensures MergedKeys(dest, config, done + {k}) == MergedKeys(dest, config, done)[k := MergeValue(dest, k, config[k]).value]
  {
  }

  /** Every section of an input is a dict. */
  predicate SectionsAreDicts(src: map<string, Value>)
  {
    forall s :: s in src ==> src[s].Dict?
  }

  predicate SourceMerges(out: Config, src: map<string, Value>)
  {
    SectionsAreDicts(src) && forall s :: s in src ==> SectionMerges(Dest(out, s), src[s].fields)
  }

  /** Merging one input into the configuration built so far. A section
      that is not a dict has no `items()`; that error is not converted. */
  function MergeSourceSpec(out: Config, src: map<string, Value>): (r: Result<Config>)
    ensures r.Ok? <==> SourceMerges(out, src)
    ensures r.Err? ==> r.error == (if SectionsAreDicts(src) then Config else PyError(AttributeError))
    ensures r.Ok? ==> r.value.Keys == out.Keys + src.Keys
    ensures r.Ok? ==> forall s :: s in out && s !in src ==> r.value[s] == out[s]
    ensures r.Ok? ==> forall s :: s in src ==> r.value[s] == MergeSectionSpec(Dest(out, s), src[s].fields).value
  {
    if !SectionsAreDicts(src) then Err(PyError(AttributeError))
    else if SourceMerges(out, src) then
      Ok(map s | s in out.Keys + src.Keys ::
        if s in src then MergeSectionSpec(Dest(out, s), src[s].fields).value else out[s])
    else Err(Config)
  }

  /** `merge_config(configdata)`: the inputs merged in order. */
  function MergeAll(cs: seq<map<string, Value>>): (r: Result<Config>)
    ensures r.Ok? ==> AllSectionsAreDicts(cs)
    ensures r.Ok? ==> forall i, s :: 0 <= i < |cs| && s in cs[i] ==> s in r.value
    ensures |cs| > 0 && MergeAll(cs[..|cs| - 1]).Ok? && !SectionsAreDicts(cs[|cs| - 1]) ==> r == Err(PyError(AttributeError))
  {
    if |cs| == 0 then Ok(map[])
    else
      var out :- MergeAll(cs[..|cs| - 1]);
      MergeSourceSpec(out, cs[|cs| - 1])
  }

  predicate AllSectionsAreDicts(cs: seq<map<string, Value>>)
  {
    forall i :: 0 <= i < |cs| ==> SectionsAreDicts(cs[i])
  }

  /** Merging one section, key by key. */
  method MergeSection(dest: Section, config: Section) returns (r: Result<Section>)
    ensures r == MergeSectionSpec(dest, config)
  {
    var out := dest;
    var todo := config.Keys;
    ghost var done: set<string> := {};
    assert out == MergedKeys(dest, config, done);
    while todo != {}
      invariant todo == config.Keys - done && done <= config.Keys
      invariant KeysMerge(dest, config, done) && out == MergedKeys(dest, config, done)
      decreases todo
    {
      var k :| k in todo;
      var v := config[k];
      assert (k in out <==> k in dest) && (k in out ==> out[k] == dest[k]);
      var merged: Value;
      if k !in out {
        merged := v;
      } else if v.Dict? {
        if !out[k].Dict? {
          return Err(Config);
        }
        merged := Dict(out[k].fields + v.fields);
      } else if v.List? {
        if !out[k].List? {
          return Err(Config);
        }
        merged := List(out[k].items + v.items);
      } else if k == "name" {
        if out[k].Str? {
          merged := List([out[k], v]);
        } else if out[k].List? {
          merged := List(out[k].items + [v]);
        } else {
          return Err(Config);
        }
      } else {
        merged := v;
      }
      assert MergeValue(dest, k, v) == Ok(merged);
      KeyStep(dest, config, done, k);
      out := out[k := merged];
      todo := todo - {k};
      done := done + {k};
    }
    assert done == config.Keys;
    r := Ok(out);
  }

  /** The merge of one input once the sections in `done` are merged into
      `acc`. */
  predicate SourcePartly(out: Config, src: map<string, Value>, done: set<string>, acc: Config)
  {
    && done <= src.Keys
    && acc.Keys == out.Keys + done
    && (forall s :: s in out && s !in done ==> acc[s] == out[s])
    && (forall s :: s in done ==> src[s].Dict? && SectionMerges(Dest(out, s), src[s].fields))
    && (forall s :: s in done ==> acc[s] == MergeSectionSpec(Dest(out, s), src[s].fields).value)
  }

  /** One more section merged. */
  lemma SourceStep(out: Config, src: map<string, Value>, done: set<string>, acc: Config, s: string, v: Section)
    requires SourcePartly(out, src, done, acc) && s in src && s !in done
    requires src[s].Dict? && SectionMerges(Dest(out, s), src[s].fields)
    requires v == MergeSectionSpec(Dest(out, s), src[s].fields).value
    ensures SourcePartly(out, src, done + {s}, acc[s := v])
  {
  }

  /** A section not merged yet is still the one the merge started from. */
  lemma SourceDest(out: Config, src: map<string, Value>, done: set<string>, acc: Config, s: string)
    requires SourcePartly(out, src, done, acc) && s in src && s !in done
    ensures Dest(acc, s) == Dest(out, s)
  {
  }

  /** A map that agrees with every merged section is the merged input. */
  lemma SourceMerged(out: Config, src: map<string, Value>, acc: Config)
    requires SourcePartly(out, src, src.Keys, acc)
    ensures MergeSourceSpec(out, src) == Ok(acc)
  {
    assert SourceMerges(out, src);
    var m := MergeSourceSpec(out, src).value;
    assert m.Keys == acc.Keys;
    forall s | s in m
      ensures m[s] == acc[s]
    {
    }
    assert m == acc;
  }

  lemma SourceFails(out: Config, src: map<string, Value>, s: string)
    requires s in src && (!src[s].Dict? || !SectionMerges(Dest(out, s), src[s].fields))
    ensures MergeSourceSpec(out, src).Err?
    ensures !src[s].Dict? ==> !SectionsAreDicts(src)
  {
  }

  /** Merging one input, section by section. Which error an input with both
      a non-dict section and a conflicting key raises depends on the order
      of its sections. */
  method MergeSource(out: Config, src: map<string, Value>) returns (r: Result<Config>)
    ensures r.Ok? <==> MergeSourceSpec(out, src).Ok?
    ensures r.Ok? ==> r == MergeSourceSpec(out, src)
    ensures r.Err? ==> r.error == Config || r.error == PyError(AttributeError)
    ensures r.Err? && SectionsAreDicts(src) ==> r.error == Config
  {
    var acc := out;
    var todo := src.Keys;
    ghost var done: set<string> := {};
    while todo != {}
      invariant todo == src.Keys - done
      invariant SourcePartly(out, src, done, acc)
      decreases todo
    {
      var s :| s in todo;
      var config := src[s];
      if !config.Dict? {
        SourceFails(out, src, s);
        return Err(PyError(AttributeError));
      }
      var dest := Dest(acc, s);
      SourceDest(out, src, done, acc, s);
      var merged := MergeSection(dest, config.fields);
      if merged.Err? {
        SourceFails(out, src, s);
        return Err(Config);
      }
      SourceStep(out, src, done, acc, s, merged.value);
      acc := acc[s := merged.value];
      todo := todo - {s};
      done := done + {s};
    }
    SourceMerged(out, src, acc);
    r := Ok(acc);
  }

  lemma MergeAllPrefixErr(cs: seq<map<string, Value>>, i: nat)
    requires i <= |cs| && MergeAll(cs[..i]).Err?
    ensures MergeAll(cs).Err?
    decreases |cs| - i
  {
    if i < |cs| {
      assert cs[..i + 1][..i] == cs[..i];
      MergeAllPrefixErr(cs, i + 1);
    } else {
      assert cs[..i] == cs;
    }
  }

  /** `merge_config`: the inputs merged in order. */
  method MergeConfig(configdata: seq<map<string, Value>>) returns (r: Result<Config>)
    ensures r.Ok? <==> MergeAll(configdata).Ok?
    ensures r.Ok? ==> r == MergeAll(configdata)
    ensures r.Err? ==> r.error == Config || r.error == PyError(AttributeError)
    ensures r.Err? && AllSectionsAreDicts(configdata) ==> r.error == Config
  {
    var out: Config := map[];
    var i := 0;
    while i < |configdata|
      invariant 0 <= i <= |configdata|
      invariant MergeAll(configdata[..i]) == Ok(out)
    {
      assert configdata[..i + 1][..i] == configdata[..i];
      var res := MergeSource(out, configdata[i]);
      if res.Err? {
        MergeAllPrefixErr(configdata, i + 1);
        return res;
      }
      out := res.value;
      i := i + 1;
    }
    assert configdata[..i] == configdata;
    r := Ok(out);
  }

  // -------------------------------------------------------------------
  // What merging in order gives

  lemma MergeAllLast(cs: seq<map<string, Value>>)
    requires |cs| > 0 && MergeAll(cs).Ok?
    ensures MergeAll(cs[..|cs| - 1]).Ok?
    ensures MergeAll(cs) == MergeSourceSpec(MergeAll(cs[..|cs| - 1]).value, cs[|cs| - 1])
  {
  }

  /** The merged configuration has exactly the sections of its inputs. */
  lemma {:induction false} MergeAllSections(cs: seq<map<string, Value>>)
    requires MergeAll(cs).Ok?
    ensures forall s :: s in MergeAll(cs).value <==> exists i :: 0 <= i < |cs| && s in cs[i]
  {
    if |cs| > 0 {
      var pre := cs[..|cs| - 1];
      MergeAllLast(cs);
      MergeAllSections(pre);
      forall s | s in MergeAll(cs).value
        ensures exists i :: 0 <= i < |cs| && s in cs[i]
      {
        if s !in cs[|cs| - 1] {
          var i :| 0 <= i < |pre| && s in pre[i];
          assert s in cs[i];
        }
      }
      forall s, i | 0 <= i < |cs| && s in cs[i]
        ensures s in MergeAll(cs).value
      {
        if i < |pre| {
          assert s in pre[i];
        }
      }
    }
  }

  /** A key whose last value is a scalar (and not the name) takes it. */
  lemma LastValueWins(cs: seq<map<string, Value>>, s: string, k: string)
    requires MergeAll(cs).Ok? && |cs| > 0
    requires s in cs[|cs| - 1] && cs[|cs| - 1][s].Dict? && k in cs[|cs| - 1][s].fields
    requires k != "name" && !cs[|cs| - 1][s].fields[k].Dict? && !cs[|cs| - 1][s].fields[k].List?
    ensures s in MergeAll(cs).value && k in MergeAll(cs).value[s]
    ensures MergeAll(cs).value[s][k] == cs[|cs| - 1][s].fields[k]
  {
    MergeAllLast(cs);
  }

  /** A list merged into a dict is a configuration error. */
  lemma ListIntoDictFails(out: Config, src: map<string, Value>, s: string, k: string)
    requires SectionsAreDicts(src) && s in src && k in src[s].fields && src[s].fields[k].List?
    requires s in out && k in out[s] && out[s][k].Dict?
    ensures MergeSourceSpec(out, src) == Err(Config)
  {
    assert !SectionMerges(Dest(out, s), src[s].fields);
  }

  function StrList(names: seq<string>): (r: seq<Value>)
    ensures |r| == |names| && forall i :: 0 <= i < |names| ==> r[i] == Str(names[i])
  {
    seq(|names|, i requires 0 <= i < |names| => Str(names[i]))
  }

  /** The name a section ends with after configurations named `names`: one
      name stays a string, more become the list of all of them. */
  function NameValue(names: seq<string>): Value
    requires |names| > 0
  {
    if |names| == 1 then Str(names[0]) else List(StrList(names))
  }

  /** The merged value of a key the last input sets. */
  lemma MergeAllAt(cs: seq<map<string, Value>>, s: string, k: string)
    requires MergeAll(cs).Ok? && |cs| > 0
    requires s in cs[|cs| - 1] && cs[|cs| - 1][s].Dict? && k in cs[|cs| - 1][s].fields
    ensures MergeAll(cs[..|cs| - 1]).Ok?
    ensures s in MergeAll(cs).value && k in MergeAll(cs).value[s]
    ensures MergeAll(cs).value[s][k] ==
      MergeValue(Dest(MergeAll(cs[..|cs| - 1]).value, s), k, cs[|cs| - 1][s].fields[k]).value
  {
    MergeAllLast(cs);
  }

  lemma NameStep(dest: Section, names: seq<string>, n: string)
    requires |names| > 0 && "name" in dest && dest["name"] == NameValue(names)
    ensures MergeValue(dest, "name", Str(n)) == Ok(NameValue(names + [n]))
  {
    if |names| == 1 {
      assert StrList(names + [n]) == [Str(names[0]), Str(n)];
    } else {
      assert StrList(names + [n]) == StrList(names) + [Str(n)];
    }
  }

  /** One input more adds its name. */
  lemma NamesStep(cs: seq<map<string, Value>>, s: string, names: seq<string>)
    requires |cs| == |names| > 1 && MergeAll(cs).Ok?
    requires s in cs[|cs| - 1] && cs[|cs| - 1][s].Dict? && "name" in cs[|cs| - 1][s].fields
    requires cs[|cs| - 1][s].fields["name"] == Str(names[|cs| - 1])
    requires MergeAll(cs[..|cs| - 1]).Ok? && s in MergeAll(cs[..|cs| - 1]).value
    requires "name" in MergeAll(cs[..|cs| - 1]).value[s]
    requires MergeAll(cs[..|cs| - 1]).value[s]["name"] == NameValue(names[..|cs| - 1])
    ensures s in MergeAll(cs).value && "name" in MergeAll(cs).value[s]
    ensures MergeAll(cs).value[s]["name"] == NameValue(names)
  {
    var n := |cs|;
    MergeAllAt(cs, s, "name");
    NameStep(Dest(MergeAll(cs[..n - 1]).value, s), names[..n - 1], names[n - 1]);
    SnocLast(names);
  }

  /** Each input gives the section the name listed for it. */
  predicate NamedBy(cs: seq<map<string, Value>>, s: string, names: seq<string>)
  {
    |cs| == |names|
    && (forall i :: 0 <= i < |cs| ==> s in cs[i] && cs[i][s].Dict? && "name" in cs[i][s].fields)
    && (forall i :: 0 <= i < |cs| ==> cs[i][s].fields["name"] == Str(names[i]))
  }

  lemma NamedByPrefix(cs: seq<map<string, Value>>, s: string, names: seq<string>)
    requires NamedBy(cs, s, names) && |cs| > 0
    ensures NamedBy(cs[..|cs| - 1], s, names[..|cs| - 1])
  {
    var pre, np := cs[..|cs| - 1], names[..|cs| - 1];
    forall i | 0 <= i < |pre| ensures pre[i] == cs[i] && np[i] == names[i] {
    }
  }

  /** Every input names the section: the merged name lists them all, in
      input order. */
  lemma {:induction false} NamesAccumulate(cs: seq<map<string, Value>>, s: string, names: seq<string>)
    requires NamedBy(cs, s, names) && |cs| > 0 && MergeAll(cs).Ok?
    ensures s in MergeAll(cs).value && "name" in MergeAll(cs).value[s]
    ensures MergeAll(cs).value[s]["name"] == NameValue(names)
  {
    var n := |cs|;
    var pre := cs[..n - 1];
    MergeAllAt(cs, s, "name");
    if n == 1 {
      assert MergeAll(pre) == Ok(map[]);
    } else {
      NamedByPrefix(cs, s, names);
      NamesAccumulate(pre, s, names[..n - 1]);
      NamesStep(cs, s, names);
    }
  }

  function Concat(lists: seq<seq<Value>>): seq<Value>
  {
    if |lists| == 0 then [] else Concat(lists[..|lists| - 1]) + lists[|lists| - 1]
  }

  /** Each input holds, in the section, the list given for it under `k`. */
  predicate ListedBy(cs: seq<map<string, Value>>, s: string, k: string, lists: seq<seq<Value>>)
  {
    |cs| == |lists|
    && (forall i :: 0 <= i < |cs| ==> s in cs[i] && cs[i][s].Dict? && k in cs[i][s].fields)
    && (forall i :: 0 <= i < |cs| ==> cs[i][s].fields[k] == List(lists[i]))
  }

  lemma ListedByPrefix(cs: seq<map<string, Value>>, s: string, k: string, lists: seq<seq<Value>>)
    requires ListedBy(cs, s, k, lists) && |cs| > 0
    ensures ListedBy(cs[..|cs| - 1], s, k, lists[..|cs| - 1])
  {
    var pre, lp := cs[..|cs| - 1], lists[..|cs| - 1];
    forall i | 0 <= i < |pre| ensures pre[i] == cs[i] && lp[i] == lists[i] {
    }
  }

  /** A list merged into the list so far extends it. */
  lemma ListStep(dest: Section, k: string, before: seq<Value>, l: seq<Value>)
    requires k in dest && dest[k] == List(before)
    ensures MergeValue(dest, k, List(l)) == Ok(List(before + l))
  {
  }

  /** Every input holds a list under the key: the merged list is their
      concatenation, in input order. */
  lemma {:induction false} ListsConcatenate(cs: seq<map<string, Value>>, s: string, k: string, lists: seq<seq<Value>>)
    requires ListedBy(cs, s, k, lists) && |cs| > 0 && MergeAll(cs).Ok?
    ensures s in MergeAll(cs).value && k in MergeAll(cs).value[s]
    ensures MergeAll(cs).value[s][k] == List(Concat(lists))
  {
    var n := |cs|;
    var pre := cs[..n - 1];
    MergeAllAt(cs, s, k);
    var dest := Dest(MergeAll(pre).value, s);
    if n == 1 {
      assert MergeAll(pre) == Ok(map[]);
      assert Concat(lists) == [] + lists[0];
    } else {
      ListedByPrefix(cs, s, k, lists);
      ListsConcatenate(pre, s, k, lists[..n - 1]);
      ListStep(dest, k, Concat(lists[..n - 1]), lists[n - 1]);
    }
  }

  // -------------------------------------------------------------------
  // load_config and load_single_config

  /** A configuration source: an already loaded configuration, or a file
      given by its name and its parsed data. */
  datatype ConfigSource = Loaded(config: map<string, Value>) | FileData(filename: string, data: Section)

  /** `configlist`: None, a single source, or a list of sources. */
  datatype ConfigArg = NoConfigs | Single(source: ConfigSource) | Several(sources: seq<ConfigSource>)

  /** `formats`: None, a single format name, or a list of them. */
  datatype FormatsArg = NoFormats | OneFormat(name: string) | FormatList(names: seq<string>)

  function Sources(c: ConfigArg): seq<ConfigSource>
  {
    match c
    case NoConfigs => []
    case Single(x) => [x]
    case Several(xs) => xs
  }

  /** A format name with the configuration prefix added when it lacks it. */
  function WithPrefix(f: string): (r: string)
    ensures StartsWith(r, FMT_CONFIG_PREFIX) && ':' in r
    ensures StartsWith(f, FMT_CONFIG_PREFIX) ==> r == f
    ensures !StartsWith(f, FMT_CONFIG_PREFIX) ==> r == FMT_CONFIG_PREFIX + f
  {
    var r := if StartsWith(f, FMT_CONFIG_PREFIX) then f else FMT_CONFIG_PREFIX + f;
    PrefixedStartsWith(f);
    PrefixHasColon(r);
    r
  }

  /** The format restriction: empty when none is given (an empty name or
      list counts as none). */
  function NormFormats(f: FormatsArg): (r: set<string>)
    ensures forall t :: t in r ==> StartsWith(t, FMT_CONFIG_PREFIX) && ':' in t
    ensures |r| == 0 <==> (f.NoFormats? || f == OneFormat("") || f == FormatList([]))
    ensures forall x :: (f.OneFormat? && x == f.name && x != "") || (f.FormatList? && x in f.names) ==> WithPrefix(x) in r
  {
    match f
    case NoFormats => {}
    case OneFormat(x) => if x == "" then {} else {WithPrefix(x)}
    case FormatList(xs) =>
      var r := set x | x in xs :: WithPrefix(x);
      assert |xs| > 0 ==> WithPrefix(xs[0]) in r;
      r
  }

  function AsSources(c: Config): (r: map<string, Value>)
    ensures r.Keys == c.Keys && SectionsAreDicts(r)
    ensures forall s :: s in c ==> r[s] == Dict(c[s])
  {
    map s | s in c :: Dict(c[s])
  }

  /** The configurations `load_config` collects, in order: loaded ones as
      they are, files through `read_config_file`, whose errors all surface
      as configuration errors. */
  function ConfigData(items: seq<ConfigSource>, formats: set<string>): (r: Result<seq<map<string, Value>>>)
    requires forall t :: t in formats ==> ':' in t
    ensures r.Err? ==> r.error == Config
    ensures r.Ok? ==> |r.value| == |items|
  {
    if |items| == 0 then Ok([])
    else
      var pre :- ConfigData(items[..|items| - 1], formats);
      var d :- ItemData(items[|items| - 1], formats);
      Ok(pre + [d])
  }

  /** Loaded configurations are taken as they are and files are read
      through their format, each in its place. */
  lemma ConfigDataAt(items: seq<ConfigSource>, formats: set<string>)
    requires forall t :: t in formats ==> ':' in t
    requires ConfigData(items, formats).Ok?
    ensures forall i :: 0 <= i < |items| && items[i].Loaded? ==> ConfigData(items, formats).value[i] == items[i].config
    ensures forall i :: 0 <= i < |items| && items[i].FileData? ==>
      ReadConfigFile(items[i].data, formats, items[i].filename).Ok? &&
      ConfigData(items, formats).value[i] == AsSources(ReadConfigFile(items[i].data, formats, items[i].filename).value)
  {
    forall i | 0 <= i < |items|
      ensures ItemData(items[i], formats) == Ok(ConfigData(items, formats).value[i])
    {
      ConfigDataItem(items, formats, i);
    }
  }

  /** The i-th configuration is what the i-th entry gives. */
  lemma {:induction false} ConfigDataItem(items: seq<ConfigSource>, formats: set<string>, i: nat)
    requires forall t :: t in formats ==> ':' in t
    requires ConfigData(items, formats).Ok? && i < |items|
    ensures ItemData(items[i], formats) == Ok(ConfigData(items, formats).value[i])
    decreases |items|
  {
    var n := |items|;
    var init := items[..n - 1];
    var pre := ConfigData(init, formats).value;
    var d := ItemData(items[n - 1], formats).value;
    assert ConfigData(items, formats).value == pre + [d];
    if i < n - 1 {
      ConfigDataItem(init, formats, i);
      assert init[i] == items[i];
    }
  }

  /** One entry of the config list: a loaded config as it is, a file read
      through its format; a file that cannot be read fails. */
  function ItemData(item: ConfigSource, formats: set<string>): (r: Result<map<string, Value>>)
    requires forall t :: t in formats ==> ':' in t
    ensures r.Err? ==> r.error == Config && item.FileData?
    ensures item.Loaded? ==> r == Ok(item.config)
    ensures item.FileData? && r.Ok? ==>
      ReadConfigFile(item.data, formats, item.filename).Ok? &&
      r.value == AsSources(ReadConfigFile(item.data, formats, item.filename).value)
  {
    match item
    case Loaded(c) => Ok(c)
    case FileData(name, data) =>
      match ReadConfigFile(data, formats, name)
      case Ok(c) => Ok(AsSources(c))
      case Err(_) => Err(Config)
  }

  /** `load_config(configlist, formats)`. */
  method LoadConfig(configlist: ConfigArg, formats: FormatsArg) returns (r: Result<Config>)
    ensures ConfigData(Sources(configlist), NormFormats(formats)).Err? ==> r == Err(Config)
    ensures ConfigData(Sources(configlist), NormFormats(formats)).Ok? ==>
      var d := ConfigData(Sources(configlist), NormFormats(formats)).value;
      (r.Ok? <==> MergeAll(d).Ok?) && (r.Ok? ==> r == MergeAll(d))
    ensures r.Err? ==> r.error == Config || r.error == PyError(AttributeError)
  {
    var items := Sources(configlist);
    var fs := NormFormats(formats);
    var data: seq<map<string, Value>> := [];
    var i := 0;
    while i < |items|
      invariant 0 <= i <= |items|
      invariant ConfigData(items[..i], fs) == Ok(data)
    {
      ConfigDataNext(items, fs, i, data);
      var d;
      match items[i] {
        case Loaded(c) =>
          d := c;
        case FileData(name, fdata) =>
          var read := ReadConfigFile(fdata, fs, name);
          if read.Err? {
            ConfigDataPrefixErr(items, fs, i + 1);
            return Err(Config);
          }
          d := AsSources(read.value);
      }
      assert ItemData(items[i], fs) == Ok(d);
      data := data + [d];
      i := i + 1;
    }
    assert items[..i] == items;
    r := MergeConfig(data);
  }

  /** Reading one more entry of the config list. */
  lemma ConfigDataNext(items: seq<ConfigSource>, formats: set<string>, i: nat, data: seq<map<string, Value>>)
    requires forall t :: t in formats ==> ':' in t
    requires i < |items| && ConfigData(items[..i], formats) == Ok(data)
    ensures ItemData(items[i], formats).Err? ==> ConfigData(items[..i + 1], formats).Err?
    ensures ItemData(items[i], formats).Ok? ==>
      ConfigData(items[..i + 1], formats) == Ok(data + [ItemData(items[i], formats).value])
  {
    assert items[..i + 1][..i] == items[..i];
  }

  lemma ConfigDataPrefixErr(items: seq<ConfigSource>, formats: set<string>, i: nat)
    requires forall t :: t in formats ==> ':' in t
    requires i <= |items| && ConfigData(items[..i], formats).Err?
    ensures ConfigData(items, formats).Err?
    decreases |items| - i
  {
    if i < |items| {
      assert items[..i + 1][..i] == items[..i];
      ConfigDataPrefixErr(items, formats, i + 1);
    } else {
      assert items[..i] == items;
    }
  }

  /** `load_single_config(base, format, configlist)`: the base first, then
      the extra sources, restricted to one format; the section stored under
      `format`, or an empty one. */
  method LoadSingleConfig(base: ConfigSource, format: string, configlist: ConfigArg) returns (r: Result<Section>)
    ensures ConfigData([base] + Sources(configlist), NormFormats(OneFormat(format))).Err? ==> r == Err(Config)
    ensures ConfigData([base] + Sources(configlist), NormFormats(OneFormat(format))).Ok? ==>
      var d := ConfigData([base] + Sources(configlist), NormFormats(OneFormat(format))).value;
      (r.Ok? <==> MergeAll(d).Ok?) && (r.Ok? ==> r == Ok(Dest(MergeAll(d).value, format)))
  {
    var config := LoadConfig(Several([base] + Sources(configlist)), OneFormat(format));
    if config.Err? {
      return Err(config.error);
    }
    r := Ok(Dest(config.value, format));
  }
}
