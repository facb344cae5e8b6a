/** Products, quotients and remainders. */
module Arithmetic {

  lemma Associates(p: int, r: int, q: int)
    ensures (p * r) * q == p * (r * q)
  {
  }

  lemma Commutes(d: int, q: int)
    ensures d * q == q * d
  {
  }

  lemma Differ(d: int, p: int, q: int)
    ensures d * p - d * q == d * (p - q)
  {
  }

  lemma Multiple(d: nat, k: int)
    ensures k > 0 ==> d * k >= d
    ensures k < 0 ==> d * k <= -(d as int)
  {
  }

  /** There is one quotient and one remainder. */
  lemma DivMod(x: nat, d: nat, q: int, r: nat)
    requires d > 0 && x == d * q + r && r < d
    ensures x / d == q && x % d == r
  {
    var p := x / d;
    Differ(d, p, q);
    Multiple(d, p - q);
  }

  /** Dividing by one number and then by another is dividing by their product. */
  lemma DivideTwice(v: nat, d: nat, p: nat)
    requires d > 0 && p > 0
    ensures d * p > 0 && v / d / p == v / (d * p)
  {
    var q, r := v / d, v % d;
    var x, y := q / p, q % p;
    Multiple(d, p);
    Associates(d, p, x);
    Distributes(d, p * x, y);
    assert v == (d * p) * x + (d * y + r);
    Differ(d, p, y);
    Multiple(d, p - y);
    Multiple(d, y);
    DivMod(v, d * p, x, d * y + r);
  }

  lemma Distributes(d: int, a: int, b: int)
    ensures d * (a + b) == d * a + d * b
  {
  }
}
