/** Token counts, as replies report them and as the programs add them up. */
module TokenCounts {

  datatype Tokens = Tokens(input: int, output: int, cacheRead: int, cacheWrite: int)

  const NO_TOKENS := Tokens(0, 0, 0, 0)

  /** A report of zero or less leaves the count as it was. */
  function Positive(reported: int, was: int): int {
    if reported > 0 then reported else was
  }
}
