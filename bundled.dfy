/** `try_bundled`: the plan for compiling the vendored C sources of libmagic
    into a static library — the generated header, the shim header, the
    compiler configuration and the list of translation units. */
module Bundled {
  import opened Wrappers
  import opened Cargo
  import opened TargetEnv

  const Version: string := "5.45"
  const Placeholder: string := "X.YY"
  const SourceDir: string := "file/src"
  const ShimHeader: string := "forcestrlcpyweak.h"
  const ShimContent: string := "#pragma weak strlcpy"
  const LibraryName: string := "magic"
  /** The one vendor whose C library already provides `strlcpy`. */
  const NativeStrlcpyVendor: string := "apple"
  const StrlcpySource: string := "file/src/strlcpy.c"

  /** `Path::join` of a relative file name, printed with `/`. */
  function JoinPath(dir: string, file: string): string {
    dir + "/" + file
  }

  // ----- Substitution of the version placeholder -----

  predicate StartsWith(s: string, p: string) {
    |p| <= |s| && s[..|p|] == p
  }

  /** `p` occurs somewhere in `s`. */
  predicate Contains(s: string, p: string)
    decreases |s|
  {
    if |s| < |p| then false else StartsWith(s, p) || (|s| > 0 && Contains(s[1..], p))
  }

  /** `str::replace`: scan left to right and replace every non-overlapping
      occurrence of `pat` by `rep`. */
  function ReplaceAll(s: string, pat: string, rep: string): (r: string)
    requires |pat| > 0
    ensures |pat| == |rep| ==> |r| == |s|
    decreases |s|
  {
    if |s| < |pat| then s
    else if StartsWith(s, pat) then rep + ReplaceAll(s[|pat|..], pat, rep)
    else [s[0]] + ReplaceAll(s[1..], pat, rep)
  }

  /** A text without the pattern comes out unchanged. */
  lemma {:induction false} ReplaceAllIdentity(s: string, pat: string, rep: string)
    requires |pat| > 0 && !Contains(s, pat)
    ensures ReplaceAll(s, pat, rep) == s
    decreases |s|
  {
    if |s| >= |pat| {
      ReplaceAllIdentity(s[1..], pat, rep);
      assert s == [s[0]] + s[1..];
    }
  }

  /** Whenever the pattern occurs in the input, the replacement occurs in
      the output. */
  lemma {:induction false} ReplaceAllInserts(s: string, pat: string, rep: string)
    requires |pat| > 0 && Contains(s, pat)
    ensures Contains(ReplaceAll(s, pat, rep), rep)
    decreases |s|
  {
    var r := ReplaceAll(s, pat, rep);
    if StartsWith(s, pat) {
      assert r[..|rep|] == rep;
      assert StartsWith(r, rep);
    } else {
      ReplaceAllInserts(s[1..], pat, rep);
      var rest := ReplaceAll(s[1..], pat, rep);
      assert r == [s[0]] + rest && r[1..] == rest;
    }
  }

  /** Characters none of which starts the pattern can be skipped when
      looking for it. */
  lemma {:induction false} ContainsSkip(c: string, rest: string, p: string)
    requires |p| > 0 && forall i :: 0 <= i < |c| ==> c[i] != p[0]
    requires Contains(c + rest, p)
    ensures Contains(rest, p)
    decreases |c|
  {
    if c != [] {
      assert !StartsWith(c + rest, p) by { assert (c + rest)[0] == c[0]; }
      assert (c + rest)[1..] == c[1..] + rest;
      ContainsSkip(c[1..], rest, p);
    } else {
      assert c + rest == rest;
    }
  }

  /** If the output begins with `q`, none of whose characters begins the
      replacement, then the input began with `q` as well. */
  lemma {:induction false} ReplaceAllPrefix(t: string, pat: string, rep: string, q: string)
    requires |pat| > 0 && |rep| > 0
    requires forall i :: 0 <= i < |q| ==> q[i] != rep[0]
    requires StartsWith(ReplaceAll(t, pat, rep), q)
    ensures StartsWith(t, q)
    decreases |q|
  {
    var r := ReplaceAll(t, pat, rep);
    if q != [] && |t| >= |pat| {
      assert r[0] == q[0];
      assert StartsWith(t, pat) ==> StartsWith(r, rep);
      if StartsWith(t, pat) {
        assert false;
      } else {
        var rest := ReplaceAll(t[1..], pat, rep);
        assert r == [t[0]] + rest;
        assert StartsWith(rest, q[1..]) by { assert rest[..|q| - 1] == r[1..|q|]; }
        ReplaceAllPrefix(t[1..], pat, rep, q[1..]);
        assert t[..|q|] == [t[0]] + t[1..][..|q| - 1];
      }
    }
  }

  /** After the substitution no `X.YY` is left, whatever the template. */
  lemma {:induction false} NoPlaceholderLeft(s: string)
    ensures !Contains(ReplaceAll(s, Placeholder, Version), Placeholder)
    decreases |s|
  {
    var r := ReplaceAll(s, Placeholder, Version);
    if |s| >= |Placeholder| {
      if StartsWith(s, Placeholder) {
        NoPlaceholderLeft(s[4..]);
        if Contains(r, Placeholder) {
          ContainsSkip(Version, ReplaceAll(s[4..], Placeholder, Version), Placeholder);
        }
      } else {
        NoPlaceholderLeft(s[1..]);
        var rest := ReplaceAll(s[1..], Placeholder, Version);
        assert r == [s[0]] + rest && r[1..] == rest;
        if Contains(r, Placeholder) {
          if s[0] != 'X' {
            ContainsSkip([s[0]], rest, Placeholder);
          } else {
            assert StartsWith(r, Placeholder);
            assert StartsWith(rest, ".YY") by { assert rest[..3] == r[1..4]; }
            ReplaceAllPrefix(s[1..], Placeholder, Version, ".YY");
            assert false;
          }
        }
      }
    }
  }

  /** Each `X.YY` becomes `5.45` in its own place and the text around it is
      kept: a text without the placeholder, then the placeholder, comes out
      as that text, then `5.45`. It holds because no proper prefix of `X.YY`
      is also a suffix of it, so a match cannot start inside `a`. */
  lemma {:induction false} ReplaceAllSplit(a: string, b: string)
    requires !Contains(a, Placeholder)
    ensures ReplaceAll(a + Placeholder + b, Placeholder, Version)
         == a + Version + ReplaceAll(b, Placeholder, Version)
    decreases |a|
  {
    var s := a + Placeholder + b;
    if a == [] {
      assert s == Placeholder + b && StartsWith(s, Placeholder);
      assert s[|Placeholder|..] == b;
    } else {
      assert !StartsWith(s, Placeholder) by {
        if |a| >= |Placeholder| {
          assert s[..|Placeholder|] == a[..|Placeholder|];
        } else {
          assert s[|a|] == 'X' && Placeholder[|a|] != 'X';
        }
      }
      assert !Contains(a[1..], Placeholder);
      assert s[1..] == a[1..] + Placeholder + b;
      ReplaceAllSplit(a[1..], b);
      assert a + Version + ReplaceAll(b, Placeholder, Version)
          == [a[0]] + (a[1..] + Version + ReplaceAll(b, Placeholder, Version));
    }
  }

  // ----- The translation units -----

  /** The translation units of the detection engine and the format
      detectors, in order. */
  function EngineSources(): seq<string> {
    [ "file/src/buffer.c", "file/src/magic.c", "file/src/apprentice.c",
      "file/src/softmagic.c", "file/src/ascmagic.c", "file/src/encoding.c",
      "file/src/compress.c", "file/src/is_csv.c", "file/src/is_json.c",
      "file/src/is_simh.c", "file/src/is_tar.c" ]
  }

  /** The translation units of the file readers and helpers, in order. */
  function ReaderSources(): seq<string> {
    [ "file/src/readelf.c", "file/src/print.c", "file/src/fsmagic.c",
      "file/src/funcs.c", "file/src/apptype.c", "file/src/der.c",
      "file/src/cdf.c", "file/src/cdf_time.c", "file/src/readcdf.c",
      "file/src/fmtcheck.c" ]
  }

  /** The translation units compiled on every target, in order. */
  function FixedSources(): (files: seq<string>)
    ensures |files| == 21
    ensures StrlcpySource !in files
  {
    EngineSources() + ReaderSources()
  }

  predicate Distinct(xs: seq<string>) {
    forall i, j :: 0 <= i < j < |xs| ==> xs[i] != xs[j]
  }

  /** The translation units compiled for a target vendor: the fixed list,
      then the `strlcpy` fallback unless the vendor provides it. */
  function Sources(vendor: string): (files: seq<string>)
    ensures |files| == |FixedSources()| + (if vendor == NativeStrlcpyVendor then 0 else 1)
    ensures files[..|FixedSources()|] == FixedSources()
    ensures StrlcpySource in files <==> vendor != NativeStrlcpyVendor
    ensures Distinct(files)
  {
    FixedSources() + (if vendor == NativeStrlcpyVendor then [] else [StrlcpySource])
  }

  // ----- The bundled build -----

  /** What a bundled build writes and compiles. */
  datatype BundledPlan = BundledPlan(
    written: seq<(string, string)>,    // files written, as (path, contents), in order
    includes: seq<string>,             // include directories
    flags: seq<string>,                // extra compiler flags
    defines: seq<(string, string)>,    // preprocessor definitions
    files: seq<string>,                // translation units
    library: string)                   // name of the static library produced

  /** The specification of `try_bundled`: the panics it can raise, in the
      order it can raise them, or the plan it carries out. `template` is the
      text of `file/src/magic.h.in`, absent when it cannot be read. */
  function PlanFor(vars: Environment, template: Option<string>): (r: Result<BundledPlan, BuildError>)
    ensures r.Err? <==>
      VarText(vars, "OUT_DIR").None? || VarText(vars, "CARGO_CFG_TARGET_VENDOR").None? || template.None?
    ensures VarText(vars, "OUT_DIR").None? ==> r == Err(OutDirMissing)
    ensures VarText(vars, "OUT_DIR").Some? && VarText(vars, "CARGO_CFG_TARGET_VENDOR").None? ==>
      r == Err(VendorMissing)
    ensures VarText(vars, "OUT_DIR").Some? && VarText(vars, "CARGO_CFG_TARGET_VENDOR").Some? && template.None? ==>
      r == Err(TemplateUnreadable)
  {
    match VarText(vars, "OUT_DIR")
    case None => Err(OutDirMissing)
    case Some(outDir) =>
      match VarText(vars, "CARGO_CFG_TARGET_VENDOR")
      case None => Err(VendorMissing)
      case Some(vendor) =>
        match template
        case None => Err(TemplateUnreadable)
        case Some(text) =>
          var includeDir := JoinPath(outDir, "include");
          Ok(BundledPlan(
            [(JoinPath(includeDir, "magic.h"), ReplaceAll(text, Placeholder, Version)),
             (JoinPath(includeDir, ShimHeader), ShimContent)],
            [SourceDir, includeDir],
            ["-include" + JoinPath(includeDir, ShimHeader)],
            [("HAVE_UNISTD_H", "1"), ("HAVE_INTTYPES_H", "1"), ("VERSION", Version)],
            Sources(vendor),
            LibraryName))
  }

  /** The generated `magic.h`: the template with the version in place of
      every placeholder, none left over, the same length, and unchanged when
      the template has no placeholder. */
  lemma BundledHeader(vars: Environment, text: string)
    requires PlanFor(vars, Some(text)).Ok?
    ensures var p := PlanFor(vars, Some(text)).value;
      var header := p.written[0].1;
      && p.written[0].0 == JoinPath(JoinPath(VarText(vars, "OUT_DIR").value, "include"), "magic.h")
      && !Contains(header, Placeholder)
      && |header| == |text|
      && (Contains(text, Placeholder) ==> Contains(header, Version))
      && (!Contains(text, Placeholder) ==> header == text)
      && (forall a, b :: !Contains(a, Placeholder) && text == a + Placeholder + b ==>
            header == a + Version + ReplaceAll(b, Placeholder, Version))
  {
    NoPlaceholderLeft(text);
    forall a, b | !Contains(a, Placeholder) && text == a + Placeholder + b
      ensures ReplaceAll(text, Placeholder, Version) == a + Version + ReplaceAll(b, Placeholder, Version)
    {
      ReplaceAllSplit(a, b);
    }
    if Contains(text, Placeholder) {
      ReplaceAllInserts(text, Placeholder, Version);
    } else {
      ReplaceAllIdentity(text, Placeholder, Version);
    }
  }

  /** The compiled sources depend only on the vendor, and the shim header
      that the `-include` flag forces into every unit is a file the plan
      writes; the `VERSION` macro is the version put into the header. */
  lemma BundledConfiguration(vars: Environment, text: string)
    requires PlanFor(vars, Some(text)).Ok?
    ensures var p := PlanFor(vars, Some(text)).value;
      && p.files == Sources(VarText(vars, "CARGO_CFG_TARGET_VENDOR").value)
      && (StrlcpySource in p.files <==> VarText(vars, "CARGO_CFG_TARGET_VENDOR").value != NativeStrlcpyVendor)
      && |p.flags| == 1 && p.flags[0] == "-include" + p.written[1].0
      && p.written[1].1 == ShimContent
      && ("VERSION", Version) in p.defines
      && p.includes[1] + "/magic.h" == p.written[0].0
      && p.library == LibraryName
  {
  }

  /** `cc::Build`: a compiler configuration filled in call by call. */
  class CcBuild {
    var includes: seq<string>
    var flags: seq<string>
    var defines: seq<(string, string)>
    var files: seq<string>

    constructor ()
      ensures includes == [] && flags == [] && defines == [] && files == []
    {
      includes, flags, defines, files := [], [], [], [];
    }

    method Include(dir: string)
      modifies this`includes
      ensures includes == old(includes) + [dir]
    {
      includes := includes + [dir];
    }

    method Flag(flag: string)
      modifies this`flags
      ensures flags == old(flags) + [flag]
    {
      flags := flags + [flag];
    }

    method Define(name: string, value: string)
      modifies this`defines
      ensures defines == old(defines) + [(name, value)]
    {
      defines := defines + [(name, value)];
    }

    method File(path: string)
      modifies this`files
      ensures files == old(files) + [path]
    {
      files := files + [path];
    }
  }

  /** The first `.file(...)` calls of `try_bundled`. */
  method AddEngineSources(build: CcBuild)
    modifies build`files
    ensures build.files == old(build.files) + EngineSources()
  {
    build.File("file/src/buffer.c");
    build.File("file/src/magic.c");
    build.File("file/src/apprentice.c");
    build.File("file/src/softmagic.c");
    build.File("file/src/ascmagic.c");
    build.File("file/src/encoding.c");
    build.File("file/src/compress.c");
    build.File("file/src/is_csv.c");
    build.File("file/src/is_json.c");
    build.File("file/src/is_simh.c");
    build.File("file/src/is_tar.c");
  }

  /** The remaining unconditional `.file(...)` calls of `try_bundled`. */
  method AddReaderSources(build: CcBuild)
    modifies build`files
    ensures build.files == old(build.files) + ReaderSources()
  {
    build.File("file/src/readelf.c");
    build.File("file/src/print.c");
    build.File("file/src/fsmagic.c");
    build.File("file/src/funcs.c");
    build.File("file/src/apptype.c");
    build.File("file/src/der.c");
    build.File("file/src/cdf.c");
    build.File("file/src/cdf_time.c");
    build.File("file/src/readcdf.c");
    build.File("file/src/fmtcheck.c");
  }

  /** The `.file(...)` calls of `try_bundled`: the fixed translation units,
      then `strlcpy.c` unless the vendor provides `strlcpy`. */
  method AddSources(build: CcBuild, vendor: string)
    modifies build`files
    ensures build.files == old(build.files) + Sources(vendor)
  {
    AddEngineSources(build);
    AddReaderSources(build);
    if vendor != NativeStrlcpyVendor {
      build.File(StrlcpySource);
    }
  }

  /** `try_bundled`, step by step: read the configuration, write the two
      headers, configure the compiler and hand it the sources. */
  method TryBundled(vars: Environment, template: Option<string>) returns (r: Result<BundledPlan, BuildError>)
    ensures r == PlanFor(vars, template)
  {
    var outDir := VarText(vars, "OUT_DIR");
    if outDir.None? {
      return Err(OutDirMissing);
    }
    var vendor := VarText(vars, "CARGO_CFG_TARGET_VENDOR");
    if vendor.None? {
      return Err(VendorMissing);
    }
    var includeDir := JoinPath(outDir.value, "include");
    if template.None? {
      return Err(TemplateUnreadable);
    }
    var data := template.value;
    data := ReplaceAll(data, Placeholder, Version);
    var written := [(JoinPath(includeDir, "magic.h"), data)];
    written := written + [(JoinPath(includeDir, ShimHeader), ShimContent)];

    var build := new CcBuild();
    build.Include(SourceDir);
    build.Include(includeDir);
    build.Flag("-include" + JoinPath(includeDir, ShimHeader));
    build.Define("HAVE_UNISTD_H", "1");
    build.Define("HAVE_INTTYPES_H", "1");
    build.Define("VERSION", Version);
    AddSources(build, vendor.value);
    assert build.includes == [SourceDir, includeDir];
    assert build.defines == [("HAVE_UNISTD_H", "1"), ("HAVE_INTTYPES_H", "1"), ("VERSION", Version)];
    r := Ok(BundledPlan(written, build.includes, build.flags, build.defines, build.files, LibraryName));
    ghost var expected := PlanFor(vars, template);
    assert expected.Ok?;
    assert expected.value.written == written;
    assert expected.value.includes == build.includes;
    assert expected.value.flags == build.flags;
    assert expected.value.defines == build.defines;
    assert expected.value.files == build.files;
  }
}
