/** Small helpers shared by the modules. */
module Basics {

  function Max(a: int, b: int): int {
    if a <= b then b else a
  }

  function Min(a: int, b: int): int {
    if a <= b then a else b
  }

  predicate HasPrefix(s: string, p: string) {
    p <= s
  }
}
