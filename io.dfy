// Path and extension logic of the I/O helpers (helper/io.py): the file name
// rules of Python's pathlib that the helpers rely on, `base_extension`, the
// mode/encoding decision of `openfile`, the scheme routing of `openuri` and
// the format choice of `load_datafile`. Opening, decompressing and parsing
// are not modelled.

module Io {
  import opened Values

  // -------------------------------------------------------------------
  // Strings

  /** `s.split(sep)` for a one-character separator. */
  function Split(s: string, sep: char): (r: seq<string>)
    ensures |r| >= 1
    ensures forall k :: 0 <= k < |r| ==> sep !in r[k]
  {
    if |s| == 0 then [""]
    else
      var rest := Split(s[..|s| - 1], sep);
      if s[|s| - 1] == sep then rest + [""]
      else rest[..|rest| - 1] + [rest[|rest| - 1] + [s[|s| - 1]]]
  }

  /** `sep.join(parts)`. */
  function Join(parts: seq<string>, sep: char): string
    requires |parts| >= 1
  {
    if |parts| == 1 then parts[0] else Join(parts[..|parts| - 1], sep) + [sep] + parts[|parts| - 1]
  }

  /** Splitting and joining back gives the original string. */
  lemma {:induction false} SplitJoin(s: string, sep: char)
    ensures Join(Split(s, sep), sep) == s
  {
    if |s| > 0 {
      var init, ch := s[..|s| - 1], s[|s| - 1];
      assert s == init + [ch];
      var rest := Split(init, sep);
      var parts := Split(s, sep);
      SplitJoin(init, sep);
      if ch == sep {
        assert parts == rest + [""];
        assert parts[..|parts| - 1] == rest;
        assert Join(parts, sep) == Join(rest, sep) + [sep] + "";
      } else {
        var n := |rest|;
        assert parts == rest[..n - 1] + [rest[n - 1] + [ch]];
        if n == 1 {
          assert Join(parts, sep) == rest[0] + [ch];
        } else {
          assert parts[..|parts| - 1] == rest[..n - 1];
          assert Join(parts, sep) == Join(rest[..n - 1], sep) + [sep] + (rest[n - 1] + [ch]);
          assert Join(rest, sep) == Join(rest[..n - 1], sep) + [sep] + rest[n - 1];
        }
      }
    }
  }

  /** Splitting `s + [sep] + t`, where `t` holds no separator, adds `t` as a
      last piece. */
  lemma {:induction false} SplitAppend(s: string, sep: char, t: string)
    requires sep !in t
    ensures Split(s + [sep] + t, sep) == Split(s, sep) + [t]
    decreases |t|
  {
    if |t| == 0 {
      assert (s + [sep] + t)[..|s + [sep] + t| - 1] == s;
    } else {
      var u := s + [sep] + t;
      var tt := t[..|t| - 1];
      assert u[..|u| - 1] == s + [sep] + tt;
      SplitAppend(s, sep, tt);
      var rest := Split(s, sep) + [tt];
      assert rest[|rest| - 1] + [t[|t| - 1]] == t;
    }
  }

  /** `s.rfind(c)`: the last index holding `c`, or -1. */
  function RFind(s: string, c: char): (i: int)
    ensures -1 <= i < |s|
    ensures i >= 0 ==> s[i] == c
    ensures forall k :: i < k < |s| ==> s[k] != c
  {
    if |s| == 0 then -1 else if s[|s| - 1] == c then |s| - 1 else RFind(s[..|s| - 1], c)
  }

  lemma RFindLast(s: string, c: char, i: nat)
    requires i < |s| && s[i] == c && forall k :: i < k < |s| ==> s[k] != c
    ensures RFind(s, c) == i
  {
  }

  /** `s.lstrip(c)` */
  function LStrip(s: string, c: char): (r: string)
    ensures |r| <= |s| && r == s[|s| - |r|..]
    ensures |r| > 0 ==> r[0] != c
    ensures forall k :: 0 <= k < |s| - |r| ==> s[k] == c
  {
    if |s| > 0 && s[0] == c then LStrip(s[1..], c) else s
  }

  // -------------------------------------------------------------------
  // pathlib file name rules

  /** The last path component that is neither empty nor ".". */
  function LastComponent(comps: seq<string>): (r: string)
    ensures r == "" || r in comps
    ensures r != "."
  {
    if |comps| == 0 then ""
    else if comps[|comps| - 1] != "" && comps[|comps| - 1] != "." then comps[|comps| - 1]
    else LastComponent(comps[..|comps| - 1])
  }

  /** `Path(s).name` */
  function PathName(s: string): (r: string)
    ensures '/' !in r && r != "."
  {
    LastComponent(Split(s, '/'))
  }

  /** `Path.suffix` of a file name: from its last dot, unless that dot is the
      first or the last character. */
  function Suffix(name: string): (r: string)
    ensures r == "" || (|r| >= 2 && r[0] == '.' && EndsWith(name, r) && '.' !in r[1..])
  {
    var i := RFind(name, '.');
    if 0 < i < |name| - 1 then name[i..] else ""
  }

  /** `Path.stem` */
  function Stem(name: string): (r: string)
    ensures Suffix(name) != "" ==> name == r + Suffix(name)
    ensures Suffix(name) == "" ==> r == name
  {
    var i := RFind(name, '.');
    if 0 < i < |name| - 1 then name[..i] else name
  }

  /** `Path.suffixes` */
  function Suffixes(name: string): (r: seq<string>)
    ensures forall k :: 0 <= k < |r| ==> |r[k]| >= 1 && r[k][0] == '.' && '.' !in r[k][1..]
  {
    if EndsWith(name, ".") then [] else Dotted(Split(LStrip(name, '.'), '.'))
  }

  /** Every piece after the first, with its dot put back. */
  function Dotted(parts: seq<string>): (r: seq<string>)
    requires |parts| >= 1
    ensures |r| == |parts| - 1 && forall k :: 0 <= k < |r| ==> r[k] == "." + parts[k + 1]
  {
    seq(|parts| - 1, k requires 0 <= k < |parts| - 1 => "." + parts[k + 1])
  }

  lemma DottedAppend(p: seq<string>, t: string)
    requires |p| >= 1
    ensures Dotted(p + [t]) == Dotted(p) + ["." + t]
  {
    var a := Dotted(p + [t]);
    var b := Dotted(p) + ["." + t];
    forall k | 0 <= k < |a| ensures a[k] == b[k] {
      assert a[k] == "." + (p + [t])[k + 1];
    }
  }

  /** What `base_extension` accepts: a string, a Path object, or anything
      else. */
  datatype PathArg = StrArg(s: string) | PathObj(p: string) | Other

  const Compressions: set<string> := {".gz", ".bz2", ".xz"}

  /** `base_extension(name)`: the file suffix once a compression suffix has
      been removed; "" for a value that is not a path. */
  function BaseExtension(arg: PathArg): (r: string)
    ensures arg.Other? ==> r == ""
    ensures r == "" || (|r| >= 2 && r[0] == '.' && '.' !in r[1..] && '/' !in r)
  {
    match arg
    case Other => ""
    case StrArg(s) => PathExtension(s)
    case PathObj(s) => PathExtension(s)
  }

  function PathExtension(s: string): (r: string)
    ensures r == "" || (|r| >= 2 && r[0] == '.' && '.' !in r[1..] && '/' !in r)
  {
    var name := PathName(s);
    var sfx := Suffix(name);
    SuffixOfPlain(name);
    SuffixOfPlain(PathName(Stem(name)));
    if sfx in Compressions then Suffix(PathName(Stem(name))) else sfx
  }

  lemma SuffixOfPlain(name: string)
    requires '/' !in name
    ensures '/' !in Suffix(name)
  {
    var r := Suffix(name);
    if r != "" {
      forall k | 0 <= k < |r| ensures r[k] != '/' {
        assert r[k] == name[|name| - |r| + k];
      }
    }
  }

  /** A plain file name without a compression suffix: the extension is its
      suffix. */
  lemma BaseExtensionPlain(s: string)
    requires Suffix(PathName(s)) !in Compressions
    ensures BaseExtension(StrArg(s)) == BaseExtension(PathObj(s)) == Suffix(PathName(s))
  {
  }

  /** A compression suffix is removed, exactly one: the extension of
      `n + ".gz"` is the suffix of `n`, even when `n` itself ends in a
      compression suffix. */
  lemma BaseExtensionStripsOne(n: string, c: string)
    requires c in Compressions && |n| > 0 && '/' !in n
    ensures BaseExtension(StrArg(n + c)) == Suffix(PathName(n))
  {
    var s := n + c;
    assert '/' !in s;
    PlainName(s);
    assert c[0] == '.' && '.' !in c[1..];
    var i := RFind(s, '.');
    assert s[|n|] == '.';
    forall k | |n| < k < |s| ensures s[k] != '.' {
      assert s[k] == c[k - |n|];
    }
    assert i == |n|;
    assert Suffix(s) == c && Stem(s) == n;
  }

  lemma PlainName(s: string)
    requires '/' !in s && s != "" && s != "."
    ensures PathName(s) == s
  {
    SplitNoSep(s, '/');
  }

  lemma {:induction false} SplitNoSep(s: string, sep: char)
    requires sep !in s
    ensures Split(s, sep) == [s]
  {
    if |s| > 0 {
      assert sep !in s[..|s| - 1];
      SplitNoSep(s[..|s| - 1], sep);
      assert s[..|s| - 1] + [s[|s| - 1]] == s;
    }
  }

  lemma AbcSuffix()
    ensures PathName("23.abc") == "23.abc" && Suffix("23.abc") == ".abc"
  {
    var n := "23.abc";
    PlainName(n);
    assert n[2] == '.' && n[3] == 'a' && n[4] == 'b' && n[5] == 'c';
    RFindLast(n, '.', 2);
  }

  /** The names in the unit tests of `base_extension`. */
  lemma BaseExtensionExamples()
    ensures BaseExtension(StrArg("23.abc")) == ".abc"
    ensures BaseExtension(PathObj("23.abc")) == ".abc"
    ensures BaseExtension(Other) == ""
  {
    AbcSuffix();
    BaseExtensionPlain("23.abc");
  }

  lemma BaseExtensionCompressedExample(c: string)
    requires c in Compressions
    ensures BaseExtension(StrArg("23.abc" + c)) == ".abc"
  {
    AbcSuffix();
    BaseExtensionStripsOne("23.abc", c);
  }

  // -------------------------------------------------------------------
  // openfile / openuri / load_datafile decisions

  /** The mode and encoding `openfile` opens with: binary modes take no
      encoding, a text mode without an encoding gets utf-8, and an explicit
      encoding forces text mode (`mode[0] + "t"`, which fails on an empty
      mode). */
  function OpenMode(mode: string, encoding: Option<string>): (r: Result<(string, Option<string>)>)
    ensures EndsWith(mode, "b") ==> r == Ok((mode, None))
    ensures !EndsWith(mode, "b") && encoding.None? ==> r == Ok((mode, Some("utf-8")))
    ensures !EndsWith(mode, "b") && encoding.Some? && |mode| > 0 ==> r == Ok(([mode[0], 't'], encoding))
    ensures r.Ok? ==> (r.value.1.None? <==> EndsWith(mode, "b"))
    ensures r.Err? <==> !EndsWith(mode, "b") && encoding.Some? && |mode| == 0
  {
    if EndsWith(mode, "b") then Ok((mode, None))
    else if encoding.None? then Ok((mode, Some("utf-8")))
    else if |mode| == 0 then Err(PyError(IndexError))
    else Ok(([mode[0], 't'], encoding))
  }

  /** How `openfile` opens a name: "-" is the standard stream for the mode,
      a compression suffix picks its decompressor, else a plain file (or the
      file-like object itself). */
  datatype Opener = StdOut | StdIn | Gzip | Bzip2 | Lzma | Plain

  function OpenKind(sname: string, mode: string): (r: Opener)
    ensures sname == "-" ==> (r == StdOut <==> StartsWith(mode, "w"))
    ensures sname != "-" && r == Plain ==> !EndsWith(sname, ".gz") && !EndsWith(sname, ".bz2") && !EndsWith(sname, ".xz")
  {
    if sname == "-" then (if StartsWith(mode, "w") then StdOut else StdIn)
    else if EndsWith(sname, ".gz") then Gzip
    else if EndsWith(sname, ".bz2") then Bzip2
    else if EndsWith(sname, ".xz") then Lzma
    else Plain
  }

  /** Where `openuri` sends a non-file-like name, given the scheme that URL
      parsing finds and the registered scheme handlers. */
  datatype Route = Handler | Remote | LocalPath

  function UriRoute(scheme: string, schemes: set<string>): (r: Result<Route>)
    ensures scheme in schemes ==> r == Ok(Handler)
    ensures r == Ok(Remote) <==> scheme !in schemes && scheme in {"http", "https", "ftp"}
    ensures r == Ok(LocalPath) <==> scheme !in schemes && scheme in {"", "file"}
    ensures r.Err? <==> scheme !in schemes && scheme !in {"http", "https", "ftp", "", "file"}
    ensures r.Err? ==> r.error == InvArg
  {
    if scheme in schemes then Ok(Handler)
    else if scheme in {"http", "https", "ftp"} then Ok(Remote)
    else if scheme !in {"", "file"} then Err(InvArg)
    else Ok(LocalPath)
  }

  /** The two data file formats `load_datafile` reads. */
  datatype DataFormat = Json | Yaml

  /** `load_datafile`'s choice: JSON when ".json" is among the name's
      suffixes (before any compression suffix or after), else YAML for
      ".yml"/".yaml", else an error. */
  function LoadFormat(filename: string): (r: Result<DataFormat>)
    ensures r == Ok(Json) <==> ".json" in Suffixes(PathName(filename))
    ensures r == Ok(Yaml) <==>
      ".json" !in Suffixes(PathName(filename))
      && (".yml" in Suffixes(PathName(filename)) || ".yaml" in Suffixes(PathName(filename)))
    ensures r.Err? ==> r.error == InvArg
  {
    var sfx := Suffixes(PathName(filename));
    if ".json" in sfx then Ok(Json)
    else if ".yml" in sfx || ".yaml" in sfx then Ok(Yaml)
    else Err(InvArg)
  }

  /** Appending a dotted suffix to a plain name that neither starts nor
      ends with a dot adds it to the suffix list. */
  lemma SuffixesAppend(n: string, t: string)
    requires |n| > 0 && n[0] != '.' && n[|n| - 1] != '.' && '/' !in n && '.' !in t && '/' !in t && |t| > 0
    ensures PathName(n + "." + t) == n + "." + t
    ensures Suffixes(n + "." + t) == Suffixes(n) + ["." + t]
  {
    var s := n + "." + t;
    assert s == n + ['.'] + t;
    assert '/' !in s;
    assert s[0] != '.' && s[|s| - 1] != '.';
    PlainName(s);
    assert LStrip(s, '.') == s;
    assert LStrip(n, '.') == n;
    SplitAppend(n, '.', t);
    var p := Split(n, '.');
    assert Split(s, '.') == p + [t];
    DottedAppend(p, t);
    assert !EndsWith(s, ".");
    assert !EndsWith(n, ".");
  }

  /** A bare name has no suffixes. */
  lemma NoSuffixes(n: string)
    requires |n| > 0 && n[0] != '.' && '/' !in n && '.' !in n
    ensures PathName(n) == n && Suffixes(n) == []
  {
    SplitNoSep(n, '.');
    PlainName(n);
    assert LStrip(n, '.') == n;
    assert !EndsWith(n, ".") by { assert n[|n| - 1] != '.'; }
    assert Suffixes(n) == Dotted([n]);
  }

  /** A ".json" suffix selects JSON, a ".yaml" suffix YAML, and a name
      with neither is refused. */
  lemma LoadFormatJson(n: string)
    requires |n| > 0 && n[0] != '.' && '/' !in n && '.' !in n
    ensures LoadFormat(n + ".json") == Ok(Json)
  {
    NoSuffixes(n);
    SuffixesAppend(n, "json");
    assert n + "." + "json" == n + ".json";
    assert "." + "json" == ".json";
    assert Suffixes(PathName(n + ".json")) == [".json"];
  }

  lemma LoadFormatYaml(n: string)
    requires |n| > 0 && n[0] != '.' && '/' !in n && '.' !in n
    ensures LoadFormat(n + ".yaml") == Ok(Yaml)
  {
    NoSuffixes(n);
    SuffixesAppend(n, "yaml");
    assert n + "." + "yaml" == n + ".yaml";
    assert "." + "yaml" == ".yaml";
    assert Suffixes(PathName(n + ".yaml")) == [".yaml"];
  }

  lemma LoadFormatNeither(n: string)
    requires |n| > 0 && n[0] != '.' && '/' !in n && '.' !in n
    ensures LoadFormat(n) == Err(InvArg)
  {
    NoSuffixes(n);
  }
}
