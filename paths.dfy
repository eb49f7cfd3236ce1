/**
  The suffix normalisation of the output path (bingo_maker/utils.py,
  `resolve_output_path`): a relative path that does not already end with
  the suffix gets it appended. Placing the path under the base directory
  and creating its parent directory are not modelled.
 */
module Paths {

  const DefaultSuffix: string := ".pdf"

  /** `s.endswith(suffix)`. */
  predicate EndsWith(s: string, suffix: string)
  {
    |suffix| <= |s| && s[|s| - |suffix|..] == suffix
  }

  /**
    The suffix step of `resolve_output_path`: the result always ends with
    the suffix and starts with the given path; a path that already ends
    with the suffix is kept as it is, any other gets exactly the suffix
    appended.
   */
  function WithSuffix(path: string, suffix: string := DefaultSuffix): (r: string)
    ensures EndsWith(r, suffix)
    ensures |path| <= |r| && r[..|path|] == path
    ensures EndsWith(path, suffix) ==> r == path
    ensures !EndsWith(path, suffix) ==> r == path + suffix
  {
    if EndsWith(path, suffix) then path
    else
      assert (path + suffix)[|path|..] == suffix;
      path + suffix
  }

  /** Normalising twice is normalising once. */
  lemma WithSuffixIdempotent(path: string, suffix: string)
    ensures WithSuffix(WithSuffix(path, suffix), suffix) == WithSuffix(path, suffix)
  {
  }
}
