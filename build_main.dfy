/** `main`: with the `bundled` feature, build the vendored sources and stop;
    otherwise link against an installed libmagic. */
module BuildMain {
  import opened Wrappers
  import opened Cargo
  import opened TargetEnv
  import opened Bundled
  import opened LinkPolicy

  /** What one run of the build script does. */
  datatype MainOutcome =
    | BundledBuild(build: Result<BundledPlan, BuildError>)   // `try_bundled()` ran
    | Located(run: BuildRun)                                 // the lookup branch ran

  /** `main`. `bundledFeature` says whether the crate is built with the
      `bundled` feature; `template` is the text of `file/src/magic.h.in`;
      `present`, `vcpkg` and `hostWindows` are as for `Locate`. */
  function Main(bundledFeature: bool, vars: Environment, template: Option<string>,
                present: set<FsPath>, vcpkg: VcpkgProbe, hostWindows: bool): (o: MainOutcome)
    ensures o.BundledBuild? <==> bundledFeature
  {
    if bundledFeature then BundledBuild(PlanFor(vars, template))
    else Located(Locate(vars, present, vcpkg, hostWindows))
  }

  /** With the `bundled` feature the outcome depends only on `OUT_DIR`,
      `CARGO_CFG_TARGET_VENDOR` and the template: `MAGIC_DIR`,
      `MAGIC_STATIC`, `TARGET`, the filesystem and vcpkg are never
      consulted. */
  lemma BundledIgnoresLookup(vars: Environment, vars': Environment, template: Option<string>,
                             present: set<FsPath>, present': set<FsPath>,
                             vcpkg: VcpkgProbe, vcpkg': VcpkgProbe, hostWindows: bool, hostWindows': bool)
    requires VarText(vars, "OUT_DIR") == VarText(vars', "OUT_DIR")
    requires VarText(vars, "CARGO_CFG_TARGET_VENDOR") == VarText(vars', "CARGO_CFG_TARGET_VENDOR")
    ensures Main(true, vars, template, present, vcpkg, hostWindows)
         == Main(true, vars', template, present', vcpkg', hostWindows')
  {
  }
}
