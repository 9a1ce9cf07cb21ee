/** Products and quotients under names of their own, so that proofs about sums of products can
    hide them and use only the laws stated here. */
module Products {

  function Times(a: real, b: real): real { a * b }

  function Over(a: real, b: real): real
    requires b != 0.0
  {
    a / b
  }

  lemma TimesMono(a: real, b: real, t: real)
    requires a <= b && t >= 0.0
    ensures Times(a, t) <= Times(b, t)
    ensures a < b && t > 0.0 ==> Times(a, t) < Times(b, t)
  {}

  lemma Distribute(k: real, a: real, b: real)
    ensures Times(k, a + b) == Times(k, a) + Times(k, b)
    ensures Times(a + b, k) == Times(a, k) + Times(b, k)
  {}

  lemma TimesSigns(a: real, b: real)
    ensures Times(-a, b) == -Times(a, b)
    ensures Times(a, 0.0) == 0.0 && Times(0.0, a) == 0.0
    ensures a > 0.0 && b > 0.0 ==> Times(a, b) > 0.0
    ensures a >= 0.0 && b >= 0.0 ==> Times(a, b) >= 0.0
  {}

  lemma OverTimes(a: real, b: real)
    requires b != 0.0
    ensures Times(Over(a, b), b) == a
  {}

  lemma OverSign(a: real, b: real)
    requires b != 0.0
    ensures Over(-a, b) == -Over(a, b)
  {}

  lemma OverBetween(lo: real, a: real, hi: real, b: real)
    requires b > 0.0 && Times(lo, b) <= a <= Times(hi, b)
    ensures lo <= Over(a, b) <= hi
    ensures Over(a, b) == lo <==> a == Times(lo, b)
  {}

  lemma OverMono(a: real, c: real, b: real)
    requires b > 0.0 && a <= c
    ensures Over(a, b) <= Over(c, b)
  {}

  /** Adding cost at or above every unit cost so far cannot lower the average. */
  lemma AverageRises(c1: real, f1: real, c2: real, f2: real, w: real)
    requires f1 > 0.0 && f2 >= 0.0 && c1 <= Times(w, f1) && Times(w, f2) <= c2
    ensures Over(c1, f1) <= Over(c1 + c2, f1 + f2)
  {
    hide Times, Over;
    var a, b := Over(c1, f1), Over(c1 + c2, f1 + f2);
    OverTimes(c1, f1);
    OverTimes(c1 + c2, f1 + f2);
    if w < a {
      TimesMono(w, a, f1);
    }
    TimesMono(a, w, f2);
    Distribute(a, f1, f2);
    if b < a {
      TimesMono(b, a, f1 + f2);
    }
  }
}
