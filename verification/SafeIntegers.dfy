/** JavaScript numbers where the repository does arithmetic on them: integers held in doubles. */
module SafeIntegers {
  const MAX_SAFE: int := 9007199254740991
  const TWO_53: int := 9007199254740992

  /** `Number.isSafeInteger` of an integer value. */
  predicate IsSafe(x: int) {
    -MAX_SAFE <= x <= MAX_SAFE
  }

  /** The double nearest to an integer below 2^54: exact up to 2^53, then every second integer,
      an odd one going to its neighbour that is a multiple of four. */
  function Nearest(x: int): int {
    if -TWO_53 <= x <= TWO_53 || x % 2 == 0 then x
    else if (x - 1) % 4 == 0 then x - 1
    else x + 1
  }

  /** `a + b` on doubles. */
  function Plus(a: int, b: int): int {
    Nearest(a + b)
  }

  /** Rounding never sneaks a sum into the safe range: the check passes exactly when the true sum
      is safe, and then the sum is the true one. */
  lemma SafeSumIsExact(a: int, b: int)
    requires IsSafe(a) && IsSafe(b)
    ensures IsSafe(Plus(a, b)) <==> IsSafe(a + b)
    ensures IsSafe(Plus(a, b)) ==> Plus(a, b) == a + b
  {
  }

  /** Without the check a sum of safe integers is right exactly up to 2^53 and, beyond, when it is
      even: every odd sum there is wrong. */
  lemma WhenSumsAreExact(a: int, b: int)
    requires IsSafe(a) && IsSafe(b)
    ensures Plus(a, b) == a + b <==> -TWO_53 <= a + b <= TWO_53 || (a + b) % 2 == 0
  {
  }
}
