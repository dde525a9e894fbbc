/** The default branch of `main`: link against a libmagic that is already
    installed, found through `MAGIC_DIR`/`MAGIC_STATIC`, through vcpkg, or
    left to the linker's own search. */
module LinkPolicy {
  import opened Wrappers
  import opened Cargo
  import opened TargetEnv

  const MagicDirVar: string := "MAGIC_DIR"
  const MagicStaticVar: string := "MAGIC_STATIC"
  const StaticLibFile: string := "libmagic.a"
  const SharedLibFile: string := "libmagic.so"
  const VcpkgLogPrefix: string := "Could not find vcpkg package: "

  /** A path the build script asks about: the directory `MAGIC_DIR` names,
      or a file joined onto it. */
  datatype FsPath = Dir(dir: EnvVal) | InDir(dir: EnvVal, file: string)

  /** The outcome of `vcpkg::find_package("libmagic")`. */
  datatype VcpkgProbe = Found | NotFound(message: string)

  /** What `MAGIC_STATIC` asks for. */
  datatype Preference = PreferShared | PreferStatic | Detect

  datatype LinkKind = Static | Dylib

  /** `env("MAGIC_STATIC").and_then(to_str)` matched against
      `"false" | "FALSE" | "0"`, any other text, or nothing. */
  function PreferenceOf(v: Option<EnvVal>): (p: Preference)
    ensures p == PreferShared <==>
      v == Some(Utf8("false")) || v == Some(Utf8("FALSE")) || v == Some(Utf8("0"))
    ensures p == Detect <==> v.None? || v.value.NonUtf8?
  {
    match v
    case Some(Utf8(text)) =>
      if text == "false" || text == "FALSE" || text == "0" then PreferShared else PreferStatic
    case _ => Detect
  }

  /** Which library to link, given the preference and which of `libmagic.a`
      and `libmagic.so` the directory holds. */
  function ChooseKind(pref: Preference, hasStatic: bool, hasShared: bool): (r: Result<LinkKind, ArtifactProblem>)
    ensures r == Ok(Static) ==> hasStatic
    ensures r == Ok(Dylib) ==> hasShared
    ensures pref == PreferShared ==> (r.Ok? <==> hasShared) && (r.Ok? ==> r.value == Dylib)
    ensures pref == PreferShared && !hasShared ==> r == Err(NoShared)
    ensures pref == PreferStatic ==> (r.Ok? <==> hasStatic) && (r.Ok? ==> r.value == Static)
    ensures pref == PreferStatic && !hasStatic ==> r == Err(NoStatic)
    ensures pref == Detect ==> (r.Ok? <==> hasStatic != hasShared)
    ensures pref == Detect && !hasStatic && !hasShared ==> r == Err(Neither)
    ensures pref == Detect && hasStatic && hasShared ==> r == Err(Both)
  {
    match pref
    case PreferShared => if hasShared then Ok(Dylib) else Err(NoShared)
    case PreferStatic => if hasStatic then Ok(Static) else Err(NoStatic)
    case Detect =>
      if !hasStatic && !hasShared then Err(Neither)
      else if hasStatic && !hasShared then Ok(Static)
      else if !hasStatic && hasShared then Ok(Dylib)
      else Err(Both)
  }

  function LinkLine(kind: LinkKind): Directive {
    match kind
    case Static => LinkStaticMagic
    case Dylib => LinkDylibMagic
  }

  /** Print the chosen link line, or panic about the directory. */
  function LinkFrom(dir: EnvVal, choice: Result<LinkKind, ArtifactProblem>): (run: BuildRun)
    ensures run.Succeeded() <==> choice.Ok?
    ensures choice.Err? ==> run.failure == Some(BadArtifacts(Display(dir), choice.error))
  {
    match choice
    case Ok(kind) => BuildRun([LinkLine(kind)], None)
    case Err(problem) => BuildRun([], Some(BadArtifacts(Display(dir), problem)))
  }

  /** The `MAGIC_DIR` branch, from the existence check on. */
  function LocateInDir(vars: Environment, dir: EnvVal, present: set<FsPath>): (run: BuildRun)
    ensures Dir(dir) !in present ==> run == BuildRun([], Some(DirMissing(Display(dir))))
  {
    if Dir(dir) !in present then BuildRun([], Some(DirMissing(Display(dir))))
    else
      After([LinkSearchNative(Display(dir))],
        match Env(vars, MagicStaticVar)
        case Err(e) => BuildRun([], Some(e))
        case Ok(l) =>
          After(Reruns(l.declared),
            LinkFrom(dir, ChooseKind(PreferenceOf(l.value),
                                     InDir(dir, StaticLibFile) in present,
                                     InDir(dir, SharedLibFile) in present))))
  }

  /** The branch without `MAGIC_DIR`: ask vcpkg, then link `magic`
      dynamically unless vcpkg succeeded on a Windows host. */
  function Fallback(vcpkg: VcpkgProbe, hostWindows: bool): (run: BuildRun)
    ensures run.Succeeded()
    ensures Links(run.emitted) == if vcpkg.Found? && hostWindows then [LinkShlwapi] else [LinkDylibMagic]
    ensures vcpkg.NotFound? ==> Log(VcpkgLogPrefix + vcpkg.message) in run.emitted
  {
    match vcpkg
    case NotFound(message) => BuildRun([Log(VcpkgLogPrefix + message), LinkDylibMagic], None)
    case Found =>
      if hostWindows then BuildRun([LinkShlwapi], None)
      else BuildRun([LinkDylibMagic], None)
  }

  /** Everything the fallback prints, in order: a failed probe is logged
      before `magic` is linked dynamically, and after vcpkg succeeds on a
      Windows host `shlwapi` is the last and only line. */
  lemma FallbackEmitted(vcpkg: VcpkgProbe, hostWindows: bool)
    ensures vcpkg.NotFound? ==>
      Fallback(vcpkg, hostWindows).emitted == [Log(VcpkgLogPrefix + vcpkg.message), LinkDylibMagic]
    ensures vcpkg.Found? ==>
      Fallback(vcpkg, hostWindows).emitted == (if hostWindows then [LinkShlwapi] else [LinkDylibMagic])
  {
  }

  /** `main` without the `bundled` feature. `present` is the set of paths
      that exist, `vcpkg` the outcome of the vcpkg probe and `hostWindows`
      whether the build script itself runs on Windows. */
  function Locate(vars: Environment, present: set<FsPath>, vcpkg: VcpkgProbe, hostWindows: bool): (run: BuildRun)
    ensures VarText(vars, TargetVar).None? ==> run == BuildRun([], Some(TargetMissing))
  {
    match Env(vars, MagicDirVar)
    case Err(e) => BuildRun([], Some(e))
    case Ok(l) =>
      After(Reruns(l.declared),
        match l.value
        case Some(dir) => LocateInDir(vars, dir, present)
        case None => Fallback(vcpkg, hostWindows))
  }

  // ----- Properties of the resolution -----

  predicate TargetKnown(vars: Environment) {
    VarText(vars, TargetVar).Some?
  }

  /** The link directives of a located run are those of the branch taken. */
  lemma LocateLinks(vars: Environment, present: set<FsPath>, vcpkg: VcpkgProbe, hostWindows: bool)
    requires TargetKnown(vars)
    ensures var run := Locate(vars, present, vcpkg, hostWindows);
      var inner := if Setting(vars, MagicDirVar).Some?
        then LocateInDir(vars, Setting(vars, MagicDirVar).value, present)
        else Fallback(vcpkg, hostWindows);
      Links(run.emitted) == Links(inner.emitted) && run.failure == inner.failure
  {
    var l := Env(vars, MagicDirVar).value;
    var inner := if l.value.Some? then LocateInDir(vars, l.value.value, present) else Fallback(vcpkg, hostWindows);
    LinksAfter(Reruns(l.declared), inner);
    RerunsHaveNoLinks(l.declared);
  }

  /** The link directives of the `MAGIC_DIR` branch once the directory is
      found: the search path, then what `ChooseKind` decides. */
  lemma InDirLinks(vars: Environment, dir: EnvVal, present: set<FsPath>)
    requires TargetKnown(vars) && Dir(dir) in present
    ensures var run := LocateInDir(vars, dir, present);
      var choice := ChooseKind(PreferenceOf(Setting(vars, MagicStaticVar)),
                               InDir(dir, StaticLibFile) in present,
                               InDir(dir, SharedLibFile) in present);
      && Links(run.emitted) == [LinkSearchNative(Display(dir))] + (if choice.Ok? then [LinkLine(choice.value)] else [])
      && run.failure == (if choice.Ok? then None else Some(BadArtifacts(Display(dir), choice.error)))
  {
    var l := LookupIn(VarText(vars, TargetVar).value, vars, MagicStaticVar);
    assert Setting(vars, MagicStaticVar) == l.value;
    InDirUnfold(vars, dir, present);
    BranchLinks(dir, l.declared, ChooseKind(PreferenceOf(l.value),
                                            InDir(dir, StaticLibFile) in present,
                                            InDir(dir, SharedLibFile) in present));
  }

  /** The search path, rerun declarations and the outcome of a choice link
      the search path and the chosen library, and fail as the choice does. */
  lemma BranchLinks(dir: EnvVal, names: seq<string>, choice: Result<LinkKind, ArtifactProblem>)
    ensures var run := After([LinkSearchNative(Display(dir))], After(Reruns(names), LinkFrom(dir, choice)));
      && Links(run.emitted) == [LinkSearchNative(Display(dir))] + (if choice.Ok? then [LinkLine(choice.value)] else [])
      && run.failure == (if choice.Ok? then None else Some(BadArtifacts(Display(dir), choice.error)))
  {
    var search := [LinkSearchNative(Display(dir))];
    var tail := LinkFrom(dir, choice).emitted;
    var mid := Reruns(names) + tail;
    var line := if choice.Ok? then [LinkLine(choice.value)] else [];
    assert Links(mid) == line by {
      LinkFromLinks(dir, choice);
      RerunsHaveNoLinks(names);
      LinksAppend(Reruns(names), tail);
    }
    assert Links(search + mid) == search + line by {
      LinksAppend(search, mid);
      assert Links(search) == search;
    }
    assert After(search, After(Reruns(names), LinkFrom(dir, choice))).emitted == search + mid;
  }

  /** The `MAGIC_DIR` branch for a directory that exists and a known target. */
  lemma InDirUnfold(vars: Environment, dir: EnvVal, present: set<FsPath>)
    requires TargetKnown(vars) && Dir(dir) in present
    ensures var l := LookupIn(VarText(vars, TargetVar).value, vars, MagicStaticVar);
      LocateInDir(vars, dir, present)
        == After([LinkSearchNative(Display(dir))],
             After(Reruns(l.declared),
               LinkFrom(dir, ChooseKind(PreferenceOf(l.value),
                                        InDir(dir, StaticLibFile) in present,
                                        InDir(dir, SharedLibFile) in present))))
  {
  }

  /** The link directives `LinkFrom` prints: the chosen line, if any. */
  lemma LinkFromLinks(dir: EnvVal, choice: Result<LinkKind, ArtifactProblem>)
    ensures Links(LinkFrom(dir, choice).emitted) == if choice.Ok? then [LinkLine(choice.value)] else []
  {
  }

  /** Everything the `MAGIC_DIR` branch prints once the directory is found:
      the search path, the rerun declarations of the `MAGIC_STATIC` lookup,
      then the chosen link line, if any. */
  lemma InDirEmitted(vars: Environment, dir: EnvVal, present: set<FsPath>)
    requires TargetKnown(vars) && Dir(dir) in present
    ensures var l := LookupIn(VarText(vars, TargetVar).value, vars, MagicStaticVar);
      var choice := ChooseKind(PreferenceOf(l.value),
                               InDir(dir, StaticLibFile) in present,
                               InDir(dir, SharedLibFile) in present);
      LocateInDir(vars, dir, present).emitted
        == [LinkSearchNative(Display(dir))] + Reruns(l.declared)
           + (if choice.Ok? then [LinkLine(choice.value)] else [])
  {
  }

  /** With an existing `MAGIC_DIR`, the run prints the rerun declarations of
      the `MAGIC_DIR` lookup, then the search path, the rerun declarations of
      the `MAGIC_STATIC` lookup and the chosen link line; it fails exactly
      when no library can be chosen. */
  lemma WithDir(vars: Environment, present: set<FsPath>, vcpkg: VcpkgProbe, hostWindows: bool, dir: EnvVal)
    requires TargetKnown(vars) && Setting(vars, MagicDirVar) == Some(dir) && Dir(dir) in present
    ensures var t := VarText(vars, TargetVar).value;
      var l := LookupIn(t, vars, MagicStaticVar);
      var choice := ChooseKind(PreferenceOf(l.value),
                               InDir(dir, StaticLibFile) in present,
                               InDir(dir, SharedLibFile) in present);
      var run := Locate(vars, present, vcpkg, hostWindows);
      && run.emitted == Reruns(LookupIn(t, vars, MagicDirVar).declared)
                        + [LinkSearchNative(Display(dir))] + Reruns(l.declared)
                        + (if choice.Ok? then [LinkLine(choice.value)] else [])
      && (run.Succeeded() <==> choice.Ok?)
  {
  }

  /** A `MAGIC_DIR` that does not exist fails the build before any link
      directive, whatever `MAGIC_STATIC` says and whichever files exist. */
  lemma MissingDirFails(vars: Environment, present: set<FsPath>, vcpkg: VcpkgProbe, hostWindows: bool, dir: EnvVal)
    requires TargetKnown(vars) && Setting(vars, MagicDirVar) == Some(dir) && Dir(dir) !in present
    ensures var run := Locate(vars, present, vcpkg, hostWindows);
      && run.failure == Some(DirMissing(Display(dir)))
      && Links(run.emitted) == []
      && run.emitted == Reruns(LookupIn(VarText(vars, TargetVar).value, vars, MagicDirVar).declared)
  {
  }

  /** `MAGIC_STATIC` set to exactly `false`, `FALSE` or `0`: link the shared
      library if `libmagic.so` present, fail otherwise; `libmagic.a` does not
      matter. */
  lemma SharedPreference(vars: Environment, present: set<FsPath>, vcpkg: VcpkgProbe, hostWindows: bool, dir: EnvVal)
    requires TargetKnown(vars) && Setting(vars, MagicDirVar) == Some(dir) && Dir(dir) in present
    requires PreferenceOf(Setting(vars, MagicStaticVar)) == PreferShared
    ensures var run := Locate(vars, present, vcpkg, hostWindows);
      var hasShared := InDir(dir, SharedLibFile) in present;
      && Links(run.emitted) == [LinkSearchNative(Display(dir))] + (if hasShared then [LinkDylibMagic] else [])
      && run.failure == (if hasShared then None else Some(BadArtifacts(Display(dir), NoShared)))
  {
    LocateLinks(vars, present, vcpkg, hostWindows);
    InDirLinks(vars, dir, present);
  }

  /** Under a shared preference, whether `libmagic.a` exists changes nothing. */
  lemma SharedPreferenceIgnoresStatic(vars: Environment, present: set<FsPath>, vcpkg: VcpkgProbe, hostWindows: bool, dir: EnvVal)
    requires TargetKnown(vars) && Setting(vars, MagicDirVar) == Some(dir)
    requires PreferenceOf(Setting(vars, MagicStaticVar)) == PreferShared
    ensures Locate(vars, present + {InDir(dir, StaticLibFile)}, vcpkg, hostWindows)
         == Locate(vars, present - {InDir(dir, StaticLibFile)}, vcpkg, hostWindows)
  {
  }

  /** Any other text in `MAGIC_STATIC`, the empty text included: link the
      static library if `libmagic.a` present, fail otherwise; `libmagic.so`
      does not matter. */
  lemma StaticPreference(vars: Environment, present: set<FsPath>, vcpkg: VcpkgProbe, hostWindows: bool, dir: EnvVal)
    requires TargetKnown(vars) && Setting(vars, MagicDirVar) == Some(dir) && Dir(dir) in present
    requires PreferenceOf(Setting(vars, MagicStaticVar)) == PreferStatic
    ensures var run := Locate(vars, present, vcpkg, hostWindows);
      var hasStatic := InDir(dir, StaticLibFile) in present;
      && Links(run.emitted) == [LinkSearchNative(Display(dir))] + (if hasStatic then [LinkStaticMagic] else [])
      && run.failure == (if hasStatic then None else Some(BadArtifacts(Display(dir), NoStatic)))
  {
    LocateLinks(vars, present, vcpkg, hostWindows);
    InDirLinks(vars, dir, present);
  }

  /** Under a static preference, whether `libmagic.so` exists changes nothing. */
  lemma StaticPreferenceIgnoresShared(vars: Environment, present: set<FsPath>, vcpkg: VcpkgProbe, hostWindows: bool, dir: EnvVal)
    requires TargetKnown(vars) && Setting(vars, MagicDirVar) == Some(dir)
    requires PreferenceOf(Setting(vars, MagicStaticVar)) == PreferStatic
    ensures Locate(vars, present + {InDir(dir, SharedLibFile)}, vcpkg, hostWindows)
         == Locate(vars, present - {InDir(dir, SharedLibFile)}, vcpkg, hostWindows)
  {
  }

  /** `MAGIC_STATIC` unset or not UTF-8: link whichever single library the
      directory holds; fail when it holds neither or both. */
  lemma DetectedKind(vars: Environment, present: set<FsPath>, vcpkg: VcpkgProbe, hostWindows: bool, dir: EnvVal)
    requires TargetKnown(vars) && Setting(vars, MagicDirVar) == Some(dir) && Dir(dir) in present
    requires PreferenceOf(Setting(vars, MagicStaticVar)) == Detect
    ensures var run := Locate(vars, present, vcpkg, hostWindows);
      var hasStatic, hasShared := InDir(dir, StaticLibFile) in present, InDir(dir, SharedLibFile) in present;
      var search := [LinkSearchNative(Display(dir))];
      && (!hasStatic && !hasShared ==>
            Links(run.emitted) == search && run.failure == Some(BadArtifacts(Display(dir), Neither)))
      && (hasStatic && !hasShared ==> Links(run.emitted) == search + [LinkStaticMagic] && run.Succeeded())
      && (!hasStatic && hasShared ==> Links(run.emitted) == search + [LinkDylibMagic] && run.Succeeded())
      && (hasStatic && hasShared ==>
            Links(run.emitted) == search && run.failure == Some(BadArtifacts(Display(dir), Both)))
  {
    LocateLinks(vars, present, vcpkg, hostWindows);
    InDirLinks(vars, dir, present);
  }

  /** Without `MAGIC_DIR` the build never fails and never adds a search
      path: vcpkg failing is logged and `magic` is linked dynamically;
      vcpkg succeeding on a Windows host adds only `shlwapi`; vcpkg
      succeeding elsewhere still links `magic` dynamically. */
  lemma WithoutDir(vars: Environment, present: set<FsPath>, vcpkg: VcpkgProbe, hostWindows: bool)
    requires TargetKnown(vars) && Setting(vars, MagicDirVar).None?
    ensures var run := Locate(vars, present, vcpkg, hostWindows);
      var t := VarText(vars, TargetVar).value;
      && run.Succeeded()
      && run.emitted[..2] == [RerunIfEnvChanged(PrefixedName(t, MagicDirVar)), RerunIfEnvChanged(MagicDirVar)]
      && run.emitted[2..] == Fallback(vcpkg, hostWindows).emitted
      && Links(run.emitted) == (if vcpkg.Found? && hostWindows then [LinkShlwapi] else [LinkDylibMagic])
  {
    LocateLinks(vars, present, vcpkg, hostWindows);
    var t := VarText(vars, TargetVar).value;
    assert PrefixedName(t, MagicDirVar) !in vars;
  }

  /** The shapes the link directives of any run can take: at most one
      search path, which comes first, at most one `magic` link line, and
      `shlwapi` only on its own. */
  predicate OneStrategy(ls: seq<Directive>) {
    || ls == []
    || ls == [LinkDylibMagic]
    || ls == [LinkShlwapi]
    || (|ls| >= 1 && ls[0].LinkSearchNative?
        && (ls[1..] == [] || ls[1..] == [LinkStaticMagic] || ls[1..] == [LinkDylibMagic]))
  }

  /** Exactly one strategy is followed, and a successful run links `magic`
      unless vcpkg succeeded on a Windows host; a failed run links nothing. */
  lemma LocateOneStrategy(vars: Environment, present: set<FsPath>, vcpkg: VcpkgProbe, hostWindows: bool)
    ensures var run := Locate(vars, present, vcpkg, hostWindows);
      var ls := Links(run.emitted);
      && OneStrategy(ls)
      && (run.failure.Some? ==> LinkStaticMagic !in ls && LinkDylibMagic !in ls && LinkShlwapi !in ls)
      && (run.Succeeded() ==> (LinkStaticMagic in ls || LinkDylibMagic in ls || ls == [LinkShlwapi]))
  {
    if TargetKnown(vars) {
      LocateLinks(vars, present, vcpkg, hostWindows);
      var dir := Setting(vars, MagicDirVar);
      if dir.Some? && Dir(dir.value) in present {
        InDirLinks(vars, dir.value, present);
      }
    }
  }

  /** Every rerun declaration in `ds` names one of `names`. */
  predicate RerunsAmong(ds: seq<Directive>, names: set<string>) {
    forall d :: d in ds && d.RerunIfEnvChanged? ==> d.name in names
  }

  lemma RerunsAmongAppend(a: seq<Directive>, b: seq<Directive>, names: set<string>)
    requires RerunsAmong(a, names) && RerunsAmong(b, names)
    ensures RerunsAmong(a + b, names)
  {
  }

  /** The names `env(name)` declares are the prefixed and the bare name. */
  lemma LookupReruns(vars: Environment, name: string)
    requires TargetKnown(vars)
    ensures var t := VarText(vars, TargetVar).value;
      RerunsAmong(Reruns(Env(vars, name).value.declared), {PrefixedName(t, name), name})
  {
  }

  /** The `MAGIC_DIR` branch declares only the names of the `MAGIC_STATIC`
      lookup. */
  lemma InDirReruns(vars: Environment, dir: EnvVal, present: set<FsPath>, names: set<string>)
    requires TargetKnown(vars)
    requires PrefixedName(VarText(vars, TargetVar).value, MagicStaticVar) in names && MagicStaticVar in names
    ensures RerunsAmong(LocateInDir(vars, dir, present).emitted, names)
  {
    if Dir(dir) in present {
      InDirEmitted(vars, dir, present);
      LookupReruns(vars, MagicStaticVar);
    }
  }

  /** The names declared for rerun: the prefixed `MAGIC_DIR` first, and
      nothing but the prefixed and bare `MAGIC_DIR` and `MAGIC_STATIC`. */
  lemma RerunNames(vars: Environment, present: set<FsPath>, vcpkg: VcpkgProbe, hostWindows: bool)
    requires TargetKnown(vars)
    ensures var run := Locate(vars, present, vcpkg, hostWindows);
      var t := VarText(vars, TargetVar).value;
      && |run.emitted| > 0 && run.emitted[0] == RerunIfEnvChanged(PrefixedName(t, MagicDirVar))
      && RerunsAmong(run.emitted, {PrefixedName(t, MagicDirVar), MagicDirVar, PrefixedName(t, MagicStaticVar), MagicStaticVar})
  {
    var t := VarText(vars, TargetVar).value;
    var names := {PrefixedName(t, MagicDirVar), MagicDirVar, PrefixedName(t, MagicStaticVar), MagicStaticVar};
    var l := Env(vars, MagicDirVar).value;
    LookupReruns(vars, MagicDirVar);
    var inner := if l.value.Some? then LocateInDir(vars, l.value.value, present) else Fallback(vcpkg, hostWindows);
    if l.value.Some? {
      InDirReruns(vars, l.value.value, present, names);
    }
    assert RerunsAmong(inner.emitted, names);
    RerunsAmongAppend(Reruns(l.declared), inner.emitted, names);
  }

  /** Only the exact texts count as "false": `False` asks for the static
      library, and so do `true`, `1` and the empty text. */
  lemma PreferenceIsCaseSensitive()
    ensures PreferenceOf(Some(Utf8("False"))) == PreferStatic
    ensures PreferenceOf(Some(Utf8("true"))) == PreferStatic
    ensures PreferenceOf(Some(Utf8("1"))) == PreferStatic
    ensures PreferenceOf(Some(Utf8(""))) == PreferStatic
  {
  }
}
