/** What the build script says to Cargo: the `cargo:` lines it prints, the
    informational lines it logs, and the panics that abort the build. */
module Cargo {
  import opened Wrappers

  /** One line printed on standard output, in the order printed. */
  datatype Directive =
    | RerunIfEnvChanged(name: string)  // cargo:rerun-if-env-changed=<name>
    | LinkSearchNative(dir: string)    // cargo:rustc-link-search=native=<dir>
    | LinkStaticMagic                  // cargo:rustc-link-lib=static=magic
    | LinkDylibMagic                   // cargo:rustc-link-lib=dylib=magic
    | LinkShlwapi                      // cargo:rustc-link-lib=shlwapi
    | Log(message: string)             // a plain line Cargo only records

  /** What a directory hint is missing, or has too much of. */
  datatype ArtifactProblem =
    | NoShared   // MAGIC_STATIC asks for the shared library, libmagic.so is absent
    | NoStatic   // MAGIC_STATIC asks for the static library, libmagic.a is absent
    | Neither    // no preference given and neither file is present
    | Both       // no preference given and both files are present

  /** The reason for a panic of the build script. */
  datatype BuildError =
    | TargetMissing                                     // TARGET unset or not UTF-8
    | DirMissing(dir: string)                           // MAGIC_DIR names no existing path
    | BadArtifacts(dir: string, problem: ArtifactProblem)
    | OutDirMissing                                     // OUT_DIR unset or not UTF-8
    | VendorMissing                                     // CARGO_CFG_TARGET_VENDOR unset or not UTF-8
    | TemplateUnreadable                                // file/src/magic.h.in cannot be read

  /** Everything printed, and the panic that ended the run if there was one. */
  datatype BuildRun = BuildRun(emitted: seq<Directive>, failure: Option<BuildError>)
  {
    predicate Succeeded() { failure.None? }
  }

  /** A run that first prints `prefix` and then behaves as `run`. */
  function After(prefix: seq<Directive>, run: BuildRun): (r: BuildRun)
    ensures r.failure == run.failure
    ensures |r.emitted| == |prefix| + |run.emitted|
    ensures r.emitted[..|prefix|] == prefix && r.emitted[|prefix|..] == run.emitted
  {
    BuildRun(prefix + run.emitted, run.failure)
  }

  /** The rerun-if-env-changed lines for the given variable names, in order. */
  function Reruns(names: seq<string>): (ds: seq<Directive>)
    ensures |ds| == |names|
    ensures forall i :: 0 <= i < |names| ==> ds[i] == RerunIfEnvChanged(names[i])
  {
    if names == [] then [] else [RerunIfEnvChanged(names[0])] + Reruns(names[1..])
  }

  predicate IsLinkDirective(d: Directive) {
    d.LinkSearchNative? || d.LinkStaticMagic? || d.LinkDylibMagic? || d.LinkShlwapi?
  }

  /** The directives that tell the linker where to search and what to link,
      in the order printed; rerun declarations and log lines are dropped. */
  function Links(ds: seq<Directive>): (ls: seq<Directive>)
    ensures |ls| <= |ds|
    ensures forall d :: d in ls <==> d in ds && IsLinkDirective(d)
  {
    if ds == [] then []
    else if IsLinkDirective(ds[0]) then [ds[0]] + Links(ds[1..])
    else Links(ds[1..])
  }

  lemma {:induction false} LinksAppend(a: seq<Directive>, b: seq<Directive>)
    ensures Links(a + b) == Links(a) + Links(b)
  {
    if a == [] {
      assert a + b == b;
    } else {
      assert (a + b)[1..] == a[1..] + b;
      LinksAppend(a[1..], b);
    }
  }

  lemma {:induction false} RerunsHaveNoLinks(names: seq<string>)
    ensures Links(Reruns(names)) == []
  {
    if names != [] {
      RerunsHaveNoLinks(names[1..]);
    }
  }

  /** The link directives of `After(prefix, run)` are those of `prefix`
      followed by those of `run`. */
  lemma LinksAfter(prefix: seq<Directive>, run: BuildRun)
    ensures Links(After(prefix, run).emitted) == Links(prefix) + Links(run.emitted)
  {
    LinksAppend(prefix, run.emitted);
  }
}
