/** Small integer functions. */
module Numbers {

  function Min(a: int, b: int): int { if a <= b then a else b }

  function Max(a: int, b: int): int { if a <= b then b else a }

  /** `max(0, n)`. */
  function NonNegative(n: int): nat { if n < 0 then 0 else n }
}
