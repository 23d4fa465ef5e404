/** Prefix stripping on strings: the inverse of prepending a fixed text,
    used to read the question back out of the texts the server builds. */
module Strings {
  import opened Wrappers

  /** The rest of `s` after the prefix `p`, or None when `s` does not start
      with `p`. Defined character by character, independently of slicing. */
  function StripPrefix(p: string, s: string): (r: Option<string>)
    ensures r.Some? <==> |p| <= |s| && s[..|p|] == p
    ensures r.Some? ==> s == p + r.value
    decreases |p|
  {
    if |p| == 0 then
      assert s == p + s;
      Some(s)
    else if |s| == 0 || s[0] != p[0] then
      None
    else
      var r := StripPrefix(p[1..], s[1..]);
      assert s == [s[0]] + s[1..];
      assert p == [p[0]] + p[1..];
      r
  }

  /** Stripping a prefix undoes prepending it. */
  lemma StripPrefixConcat(p: string, q: string)
    ensures StripPrefix(p, p + q) == Some(q)
  {
  }
}
