/** Powers of two and of ten. */
module Powers {

  function Pow2(n: nat): nat
    ensures Pow2(n) >= 1
  {
    if n == 0 then 1 else 2 * Pow2(n - 1)
  }

  function Ten(n: nat): nat
    ensures Ten(n) >= 1
  {
    if n == 0 then 1 else 10 * Ten(n - 1)
  }

  lemma {:induction false} TenAdd(a: nat, b: nat)
    ensures Ten(a + b) == Ten(a) * Ten(b)
  {
    if a > 0 {
      TenAdd(a - 1, b);
      TenfoldProduct(Ten(a), Ten(a - 1), Ten(b));
    }
  }

  lemma TenfoldProduct(x: nat, y: nat, z: nat)
    requires x == 10 * y
    ensures x * z == 10 * (y * z)
  {
  }
}
