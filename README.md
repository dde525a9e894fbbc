# libmagic build-script model

A Dafny model of the build script of `magic-sys`, the Rust bindings to
libmagic (the content-type detection library behind `file(1)`). The build
script runs once when the crate is compiled and decides how the native
library gets linked:

- **bundled** (the `bundled` Cargo feature): generate `magic.h` from its
  template with the version `5.45` in place of the placeholder `X.YY`,
  write a shim header that makes `strlcpy` weak, and compile the vendored
  C sources (plus `strlcpy.c` unless the target vendor is `apple`) into a
  static library;
- otherwise, **`MAGIC_DIR`**: check that the directory exists, add it as a
  native search path, and link `libmagic.a` or `libmagic.so` according to
  `MAGIC_STATIC` (`false`/`FALSE`/`0` for shared, any other text for static,
  unset or not UTF-8 for "whichever single one is there");
- otherwise **vcpkg**, and finally a **bare** `dylib=magic` link request.

`MAGIC_DIR` and `MAGIC_STATIC` are read through `env(name)`, which lets
`<TRIPLE>_<NAME>` (the target triple upper-cased, `-` turned into `_`)
override `NAME`, and declares the names it read as rerun triggers. `TARGET`,
`OUT_DIR` and `CARGO_CFG_TARGET_VENDOR` are read directly with
`std::env::var`.

The environment is a map from names to values (`TargetEnv.EnvVal`: UTF-8
text or a non-UTF-8 OsString), the filesystem is the set of paths that
exist, and the vcpkg probe and the host platform are parameters. What the
script prints is a sequence of `Cargo.Directive`s; a panic is a
`Cargo.BuildError`, kept together with the lines printed before it
(`Cargo.BuildRun`).

Modules, one per part of `build.rs`:

- `Wrappers`: `Option` and `Result`.
- `Cargo`: directives, errors, runs, and `Links` (the link directives of a
  run, with rerun and log lines dropped).
- `TargetEnv`: `env` (target-triple normalisation, prefixed and bare lookup).
- `Bundled`: `try_bundled`, as the specification `PlanFor` and the
  step-by-step method `TryBundled` over a `CcBuild` builder class. The
  source's single chain of `.file(...)` calls is split between
  `AddEngineSources` and `AddReaderSources` so that each proof stays small;
  the calls and their order are the source's.
- `LinkPolicy`: the branch of `main` that runs without the `bundled` feature.
- `BuildMain`: `main`.

Details of the code that are easy to misread, and that the model keeps:

- the triple is normalised by upper-casing and replacing `-` only, not every
  non-alphanumeric separator;
- the bare name is declared for rerun only when the prefixed variable is
  unset, not always;
- `MAGIC_STATIC` is compared case-sensitively with `false`, `FALSE` and `0`,
  so `False` asks for the static library, and so does the empty text;
- after vcpkg succeeds on a host that is not Windows, `dylib=magic` is still
  printed;
- the Windows test is `cfg!(windows)`, i.e. the platform the build script
  itself runs on, not the target.

## Model

| member | source | states |
|---|---|---|
| TargetEnv.VarText | build.rs:2 | `std::env::var` yields a text exactly when the variable is set and valid UTF-8, and that text is its value |
| TargetEnv.ToUpper | build.rs:3 | upper-casing keeps the length and maps every character through ASCII upper-casing |
| TargetEnv.ReplaceChar | build.rs:3 | replacing `-` keeps the length and changes exactly the `-` characters |
| TargetEnv.Normalize | build.rs:3 | the normalised triple has the triple's length, contains no ASCII lower-case letter and no `-`, and each character is the upper-cased one or `_` for `-` |
| TargetEnv.NormalizeIdempotent | build.rs:3 | normalising twice is normalising once |
| TargetEnv.NormalizeKeepsOthers | build.rs:3 | a character is left unchanged exactly when it is neither an ASCII lower-case letter nor `-` |
| TargetEnv.NormalizeExample | build.rs:3 | `x86_64-Unknown-linux-GNU` becomes `X86_64_UNKNOWN_LINUX_GNU` |
| TargetEnv.NormalizeAppend | build.rs:3 | normalisation distributes over concatenation |
| TargetEnv.PrefixedName | build.rs:4 | the prefixed name is the normalised triple, `_`, then the bare name |
| TargetEnv.PrefixedNameDistinct | build.rs:4 | the prefixed name never equals the bare name, and two bare names give the same prefixed name only if they are equal |
| TargetEnv.LookupIn | build.rs:4-12 | the prefixed name is always declared first; if it is set its value is returned and nothing else is declared; otherwise the bare value or absence is returned and the bare name is declared second |
| TargetEnv.Env | build.rs:1-13 | the lookup panics before declaring anything exactly when TARGET is unset or not UTF-8, and otherwise is the lookup for that triple |
| TargetEnv.OverridePrecedence | build.rs:6-11 | only the bare variable set yields it; only the prefixed one set yields it; both set yields the prefixed one, in either order of assignment |
| TargetEnv.DeclaredNames | build.rs:5-10 | exactly the prefixed name is declared iff the prefixed variable is set; the prefixed then the bare name iff it is not |
| Bundled.ReplaceAll | build.rs:26 | with a pattern and a replacement of equal length the text keeps its length |
| Bundled.ReplaceAllIdentity | build.rs:26 | a text without the pattern is returned unchanged |
| Bundled.ReplaceAllInserts | build.rs:26 | if the pattern occurs in the input, the replacement occurs in the output |
| Bundled.ReplaceAllSplit | build.rs:26 | a text without `X.YY`, then `X.YY`, then any rest becomes that text, then `5.45`, then the substituted rest: each placeholder is replaced in its own place and every other character is kept |
| Bundled.NoPlaceholderLeft | build.rs:26 | after substituting `5.45` for `X.YY` no `X.YY` remains, for every template |
| Bundled.FixedSources | build.rs:39-59 | the unconditional list has 21 translation units and does not include `strlcpy.c` |
| Bundled.Sources | build.rs:39-63 | the compiled units are the 21 fixed ones in order, followed by `strlcpy.c` exactly when the vendor is not `apple`, with no unit twice |
| Bundled.PlanFor | build.rs:16-66 | `try_bundled` panics exactly when OUT_DIR or CARGO_CFG_TARGET_VENDOR is unset or not UTF-8 or the template cannot be read, with the first of these as the reason |
| Bundled.BundledHeader | build.rs:20-27 | `magic.h` is written to `OUT_DIR/include`, has no `X.YY` left, keeps the template's length, contains `5.45` when the template had a placeholder and equals the template when it had none; for every split of the template at its first `X.YY`, the header is the text before it, `5.45`, then the substituted rest |
| Bundled.BundledConfiguration | build.rs:28-65 | the units are those of the vendor; the one `-include` flag names the shim header the plan writes, whose content is `#pragma weak strlcpy`; `VERSION` is defined as `5.45`; the include directory holds `magic.h`; the library is `magic` |
| Bundled.CcBuild.constructor | build.rs:30 | a new builder has no include directories, flags, definitions or files |
| Bundled.CcBuild.Include | build.rs:33-34 | appends one include directory and changes nothing else |
| Bundled.CcBuild.Flag | build.rs:35 | appends one compiler flag and changes nothing else |
| Bundled.CcBuild.Define | build.rs:36-38 | appends one preprocessor definition and changes nothing else |
| Bundled.CcBuild.File | build.rs:39-62 | appends one translation unit and changes nothing else |
| Bundled.AddEngineSources | build.rs:39-49 | appends the detection-engine and detector units in order |
| Bundled.AddReaderSources | build.rs:50-59 | appends the reader and helper units in order |
| Bundled.AddSources | build.rs:39-63 | appends exactly the units `Sources` gives for the vendor |
| Bundled.TryBundled | build.rs:16-66 | the step-by-step build produces exactly the plan, or the panic, that `PlanFor` specifies |
| LinkPolicy.PreferenceOf | build.rs:86-99 | shared is asked for exactly by the texts `false`, `FALSE` and `0`; detection happens exactly when `MAGIC_STATIC` is unset or not UTF-8 |
| LinkPolicy.PreferenceIsCaseSensitive | build.rs:86-93 | `False`, `true`, `1` and the empty text all ask for the static library |
| LinkPolicy.ChooseKind | build.rs:86-106 | a chosen library always exists; under a shared or static preference the choice succeeds exactly when that library exists and fails with `NoShared`/`NoStatic` otherwise; under detection it succeeds exactly when one of the two exists and fails with `Neither` or `Both` otherwise |
| LinkPolicy.LinkFrom | build.rs:87-106 | the branch succeeds exactly when a library was chosen; otherwise it panics about the directory with the reason the choice gave |
| LinkPolicy.LocateInDir | build.rs:76-78 | a `MAGIC_DIR` that does not exist panics with `DirMissing` before printing anything |
| LinkPolicy.InDirLinks | build.rs:76-107 | for an existing `MAGIC_DIR`, the links are the search path followed by the chosen library's link line, if any; the run fails exactly when the choice does, with the choice's reason |
| LinkPolicy.InDirEmitted | build.rs:79-106 | once the directory is found the branch prints the search path, then the rerun declarations of the `MAGIC_STATIC` lookup, then the chosen link line, if any, and nothing else |
| LinkPolicy.WithDir | build.rs:75-106 | with an existing `MAGIC_DIR` the whole run is the `MAGIC_DIR` rerun declarations, the search path, the `MAGIC_STATIC` rerun declarations and the chosen link line, in that order; it fails exactly when no library can be chosen |
| LinkPolicy.Fallback | build.rs:109-120 | without `MAGIC_DIR` the script never fails; a failed probe is logged; it links only `shlwapi` after vcpkg succeeds on a Windows host and `dylib=magic` in every other case |
| LinkPolicy.FallbackEmitted | build.rs:109-120 | everything the fallback prints, in order: a failed probe prints the log line then `dylib=magic`; a successful probe prints `shlwapi` alone on a Windows host and `dylib=magic` alone elsewhere |
| LinkPolicy.Locate | build.rs:75-121 | with TARGET unset or not UTF-8 the lookup branch panics before printing anything |
| LinkPolicy.MissingDirFails | build.rs:75-78 | a `MAGIC_DIR` that does not exist fails with `DirMissing` after printing only the rerun declarations of the `MAGIC_DIR` lookup: no search path, no link line and no `MAGIC_STATIC` declaration, whatever `MAGIC_STATIC` and the library files are |
| LinkPolicy.SharedPreference | build.rs:79-92 | with `MAGIC_STATIC` set to `false`/`FALSE`/`0`, the links are the search path then `dylib=magic` if `libmagic.so` exists; otherwise the search path alone and the `NoShared` failure |
| LinkPolicy.SharedPreferenceIgnoresStatic | build.rs:87-92 | under that preference the presence of `libmagic.a` changes nothing |
| LinkPolicy.StaticPreference | build.rs:79-98 | with any other text in `MAGIC_STATIC`, the links are the search path then `static=magic` if `libmagic.a` exists; otherwise the search path alone and the `NoStatic` failure |
| LinkPolicy.StaticPreferenceIgnoresShared | build.rs:93-98 | under that preference the presence of `libmagic.so` changes nothing |
| LinkPolicy.DetectedKind | build.rs:99-105 | with `MAGIC_STATIC` unset or not UTF-8: neither file fails with `Neither`, only `.a` links static, only `.so` links dylib, both fail with `Both` |
| LinkPolicy.WithoutDir | build.rs:108-121 | without `MAGIC_DIR` the run succeeds, first declares the prefixed and bare `MAGIC_DIR`, then prints what the vcpkg fallback prints, and never adds a search path |
| LinkPolicy.LocateOneStrategy | build.rs:75-121 | every run's links take one of the shapes: nothing, `dylib=magic`, `shlwapi`, or one search path followed by at most one `magic` link; a failed run links nothing, a successful one links `magic` unless vcpkg succeeded on Windows |
| LinkPolicy.RerunNames | build.rs:5-9 | the first line is the rerun declaration of the prefixed `MAGIC_DIR`, and only the prefixed and bare `MAGIC_DIR` and `MAGIC_STATIC` are ever declared |
| BuildMain.Main | build.rs:68-122 | the bundled build runs exactly when the `bundled` feature is on |
| BuildMain.BundledIgnoresLookup | build.rs:69-73 | with the `bundled` feature the outcome depends only on OUT_DIR, the target vendor and the template, never on `MAGIC_DIR`, `MAGIC_STATIC`, TARGET, the filesystem or vcpkg |

## Left out

- Process environment, standard output and panics: the environment is a map, printed lines are a directive sequence, panics are `BuildError` values without their message text (the `{:?}` rendering of the directory is not modelled).
- Upper-casing handles ASCII letters only; Rust's `to_uppercase` also maps non-ASCII letters (target triples are ASCII).
- Paths: `Path::join` is `FsPath.InDir` for the library files and `/`-concatenation (`Bundled.JoinPath`) for the generated headers; separators, absolute components and `to_string_lossy` beyond keeping the lossy text of a non-UTF-8 value are not modelled.
- `Path::exists` is membership in a set of present paths; symbolic links and permission errors are not modelled.
- `vcpkg::find_package` is a parameter (`Found` or `NotFound(message)`); the directives vcpkg prints itself when it succeeds are not modelled.
- `cc::Build`: `CcBuild` records the include directories, flags, definitions and files; running the compiler, the directives `compile` prints and a compiler failure are not modelled.
- `create_dir_all` and `fs::write` failures (panics through `unwrap`) are not modelled; a template that cannot be read is an absent template.
- `#[cfg(feature = "bundled")]` and `cfg!(windows)` are compile-time in the source and parameters here.
