/** String helpers with Python's meaning. */
module Text {

  function Min(a: int, b: int): int {
    if a <= b then a else b
  }

  /** Python's slice `s[:n]` for a non-negative `n`: the first `n` characters, or all of `s` when it is shorter. */
  function Prefix(s: string, n: nat): (p: string)
    ensures |p| == Min(n, |s|)
    ensures p == s[..|p|]
  {
    if |s| <= n then s else s[..n]
  }
}
