/** `env(name)`: read a configuration variable, letting a variable prefixed
    with the normalised target triple override the bare one, and declare to
    Cargo which variable names the build depends on. */
module TargetEnv {
  import opened Wrappers
  import opened Cargo

  /** A value of the process environment: valid UTF-8 text, or an OsString
      that is not valid UTF-8 (kept as its lossy rendering). */
  datatype EnvVal = Utf8(text: string) | NonUtf8(lossy: string)

  /** The process environment; a name outside the map is unset. */
  type Environment = map<string, EnvVal>

  const TargetVar: string := "TARGET"

  /** `to_string_lossy`: how a value is printed. */
  function Display(v: EnvVal): string {
    match v
    case Utf8(t) => t
    case NonUtf8(l) => l
  }

  /** `std::env::var`: only a set, UTF-8 value is returned. */
  function VarText(vars: Environment, name: string): (r: Option<string>)
    ensures r.Some? <==> name in vars && vars[name].Utf8?
    ensures r.Some? ==> vars[name] == Utf8(r.value)
  {
    if name in vars && vars[name].Utf8? then Some(vars[name].text) else None
  }

  predicate IsAsciiLower(c: char) { 'a' <= c <= 'z' }

  /** ASCII upper-casing of one character; other characters are unchanged. */
  function UpperChar(c: char): (u: char)
    ensures !IsAsciiLower(u)
    ensures IsAsciiLower(c) ==> u as int == c as int - 32
    ensures !IsAsciiLower(c) ==> u == c
  {
    if IsAsciiLower(c) then (c as int - 32) as char else c
  }

  /** `to_uppercase`, restricted to ASCII letters. */
  function ToUpper(s: string): (r: string)
    ensures |r| == |s|
    ensures forall i :: 0 <= i < |s| ==> r[i] == UpperChar(s[i])
  {
    if s == [] then [] else [UpperChar(s[0])] + ToUpper(s[1..])
  }

  /** `replace(from, to)` for a one-character pattern. */
  function ReplaceChar(s: string, from: char, to: char): (r: string)
    ensures |r| == |s|
    ensures forall i :: 0 <= i < |s| ==> r[i] == (if s[i] == from then to else s[i])
  {
    if s == [] then []
    else [if s[0] == from then to else s[0]] + ReplaceChar(s[1..], from, to)
  }

  /** The triple as it appears in variable names: upper case, `-` as `_`. */
  function Normalize(target: string): (r: string)
    ensures |r| == |target|
    ensures forall i :: 0 <= i < |r| ==> !IsAsciiLower(r[i]) && r[i] != '-'
    ensures forall i :: 0 <= i < |r| ==>
      r[i] == (if target[i] == '-' then '_' else UpperChar(target[i]))
  {
    ReplaceChar(ToUpper(target), '-', '_')
  }

  /** `<NORMALISED_TRIPLE>_<NAME>`. */
  function PrefixedName(target: string, name: string): (p: string)
    ensures |p| == |target| + 1 + |name|
    ensures p[..|target|] == Normalize(target)
    ensures p[|target|] == '_' && p[|target| + 1..] == name
  {
    Normalize(target) + "_" + name
  }

  /** The value `env` returns and the names it declares, in order. */
  datatype Lookup = Lookup(value: Option<EnvVal>, declared: seq<string>)

  /** `env(name)` once TARGET is known. */
  function LookupIn(target: string, vars: Environment, name: string): (l: Lookup)
    ensures |l.declared| >= 1 && l.declared[0] == PrefixedName(target, name)
    ensures PrefixedName(target, name) in vars ==>
      l == Lookup(Some(vars[PrefixedName(target, name)]), [PrefixedName(target, name)])
    ensures PrefixedName(target, name) !in vars ==>
      l.declared == [PrefixedName(target, name), name] &&
      l.value == (if name in vars then Some(vars[name]) else None)
  {
    var prefixed := PrefixedName(target, name);
    if prefixed in vars then Lookup(Some(vars[prefixed]), [prefixed])
    else Lookup(if name in vars then Some(vars[name]) else None, [prefixed, name])
  }

  /** `env(name)`: panics, before declaring anything, when TARGET is unset
      or not UTF-8. */
  function Env(vars: Environment, name: string): (r: Result<Lookup, BuildError>)
    ensures r.Err? <==> VarText(vars, TargetVar).None?
    ensures r.Ok? ==> r.value == LookupIn(VarText(vars, TargetVar).value, vars, name)
  {
    match VarText(vars, TargetVar)
    case None => Err(TargetMissing)
    case Some(target) => Ok(LookupIn(target, vars, name))
  }

  /** The value `env(name)` returns, absent when the lookup panics. */
  function Setting(vars: Environment, name: string): Option<EnvVal> {
    match Env(vars, name)
    case Ok(l) => l.value
    case Err(_) => None
  }

  // ----- Properties of the normalisation -----

  lemma NormalizeIdempotent(target: string)
    ensures Normalize(Normalize(target)) == Normalize(target)
  {
  }

  /** The only characters the normalisation changes are ASCII lower-case
      letters and `-`. */
  lemma NormalizeKeepsOthers(target: string, i: int)
    requires 0 <= i < |target|
    ensures Normalize(target)[i] == target[i] <==> !IsAsciiLower(target[i]) && target[i] != '-'
  {
  }

  /** Normalisation works character by character, so it distributes over
      concatenation. */
  lemma NormalizeAppend(a: string, b: string)
    ensures Normalize(a + b) == Normalize(a) + Normalize(b)
  {
  }

  /** The example of a mixed-case triple: `x86_64-Unknown-linux-GNU`,
      taken one component at a time. */
  lemma NormalizeExample()
    ensures Normalize("x86_64-Unknown-linux-GNU") == "X86_64_UNKNOWN_LINUX_GNU"
  {
    var a, b, c, d := "x86_64-", "Unknown-", "linux-", "GNU";
    assert "x86_64-Unknown-linux-GNU" == ((a + b) + c) + d;
    assert "X86_64_UNKNOWN_LINUX_GNU" == (("X86_64_" + "UNKNOWN_") + "LINUX_") + "GNU";
    NormalizeArch();
    NormalizeVendor();
    NormalizeSystem();
    NormalizeAbi();
    NormalizeAppend(a, b);
    NormalizeAppend(a + b, c);
    NormalizeAppend((a + b) + c, d);
  }

  lemma NormalizeArch()
    ensures Normalize("x86_64-") == "X86_64_"
  {
  }

  lemma NormalizeVendor()
    ensures Normalize("Unknown-") == "UNKNOWN_"
  {
  }

  lemma NormalizeSystem()
    ensures Normalize("linux-") == "LINUX_"
  {
  }

  lemma NormalizeAbi()
    ensures Normalize("GNU") == "GNU"
  {
  }

  // ----- Properties of the lookup -----

  /** The prefixed name never coincides with the bare one, and different
      bare names give different prefixed names. */
  lemma PrefixedNameDistinct(target: string, a: string, b: string)
    ensures PrefixedName(target, a) != a
    ensures PrefixedName(target, a) == PrefixedName(target, b) <==> a == b
  {
  }

  /** Setting only the bare variable yields it; setting only the prefixed
      one yields it; setting both yields the prefixed one. */
  lemma OverridePrecedence(target: string, vars: Environment, name: string, bare: EnvVal, over: EnvVal)
    ensures LookupIn(target, (vars - {PrefixedName(target, name)})[name := bare], name).value == Some(bare)
    ensures LookupIn(target, (vars - {name})[PrefixedName(target, name) := over], name).value == Some(over)
    ensures LookupIn(target, vars[name := bare][PrefixedName(target, name) := over], name).value == Some(over)
    ensures LookupIn(target, vars[PrefixedName(target, name) := over][name := bare], name).value == Some(over)
  {
  }

  /** The declared names are exactly the prefixed one, then the bare one
      when the prefixed lookup missed. */
  lemma DeclaredNames(target: string, vars: Environment, name: string)
    ensures var l := LookupIn(target, vars, name);
      (l.declared == [PrefixedName(target, name)] <==> PrefixedName(target, name) in vars) &&
      (l.declared == [PrefixedName(target, name), name] <==> PrefixedName(target, name) !in vars)
  {
  }
}
