/** Powers of two, without a bound on the exponent. */
module Powers {

  function PowerOfTwo(n: nat): nat {
    if n == 0 then 1 else 2 * PowerOfTwo(n - 1)
  }
}
