/** Resolution of a crate name to the absolute path that generated code uses
    to reach that crate (crates/macros/src/utils.rs). */
module Utils {
  import opened Wrappers
  import opened Syntax

  /** What the `Cargo.toml` lookup reports: the crate being compiled is the
      requested crate itself, or the requested crate is a dependency reachable
      under the given name (its alias, or its own name when it has none). */
  datatype FoundCrate = Itself | Name(name: string)

  /** The absolute one-segment path `::name`. */
  predicate IsCratePath(p: Path, name: string) {
    p.leadingColon && p.segments == [name]
  }

  /** `resolve_crate_name`: `::crate_name` when expanding inside the crate
      itself, `::name` for the name the dependency is found under. */
  function ResolveCrateName(crateName: string, found: FoundCrate): (p: Path)
    ensures found.Itself? ==> IsCratePath(p, crateName)
    ensures found.Name? ==> IsCratePath(p, found.name)
    ensures p.leadingColon && |p.segments| == 1
  {
    match found
    case Itself => Path(true, [crateName])
    case Name(name) => Path(true, [name])
  }

  /** With a `Name` found, the requested name plays no part in the path. */
  lemma ResolveIgnoresRequestedName(a: string, b: string, name: string)
    ensures ResolveCrateName(a, Name(name)) == ResolveCrateName(b, Name(name))
  {
  }

  /** Two resolutions give the same path exactly when they name the same crate. */
  lemma ResolveSamePathIffSameTarget(a: string, fa: FoundCrate, b: string, fb: FoundCrate)
    ensures ResolveCrateName(a, fa) == ResolveCrateName(b, fb) <==>
      (if fa.Itself? then a else fa.name) == (if fb.Itself? then b else fb.name)
  {
  }

  /** `crate_name`: look the crate up through `lookup` (standing for the
      `Cargo.toml` of the crate being compiled) and resolve what was found;
      a failed lookup aborts the expansion. */
  function CrateName(lookup: string -> Option<FoundCrate>, crateName: string): (r: Result<Path, Panic>)
    ensures lookup(crateName).None? <==> r.Failure?
    ensures r.Failure? ==> r.error == MissingCrate(crateName)
    ensures r.Success? ==> r.value == ResolveCrateName(crateName, lookup(crateName).value)
  {
    match lookup(crateName)
    case None => Failure(MissingCrate(crateName))
    case Some(found) => Success(ResolveCrateName(crateName, found))
  }

  /** The tests `when_found_crate_is_itself` and `when_found_crate_is_name`. */
  lemma ResolveCrateNameTestCases()
    ensures ResolveCrateName("rstest_insta", Itself) == Path(true, ["rstest_insta"])
    ensures ResolveCrateName("orig_crate_name", Name("rstest")) == Path(true, ["rstest"])
  {
  }
}
