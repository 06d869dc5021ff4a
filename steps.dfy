/** Facts about multiples of a positive real step, `start + k * step`, kept
    apart from the sequence reasoning. Each fact is derived through small
    lemmas that each carry one product, which keeps the solver on linear
    ground. */
module Steps {

  lemma MulLess(a: real, b: real, step: real)
    requires step > 0.0 && a < b
    ensures a * step < b * step
  {
  }

  lemma MulAtMost(a: real, b: real, step: real)
    requires step > 0.0 && a <= b
    ensures a * step <= b * step
  {
  }

  lemma DivMul(a: real, step: real)
    requires step > 0.0
    ensures (a / step) * step == a
  {
  }

  /** A multiple with fewer than (stop - start) / step steps stays below stop. */
  lemma StepBelow(start: real, stop: real, step: real, k: real)
    requires step > 0.0 && k < (stop - start) / step
    ensures start + k * step < stop
  {
    var q := (stop - start) / step;
    DivMul(stop - start, step);
    MulLess(k, q, step);
  }

  /** At most (stop - start) / step steps reach at most stop. */
  lemma StepAtMost(start: real, stop: real, step: real, k: real)
    requires step > 0.0 && k <= (stop - start) / step
    ensures start + k * step <= stop
  {
    var q := (stop - start) / step;
    DivMul(stop - start, step);
    MulAtMost(k, q, step);
  }

  /** At least (stop - start) / step steps reach stop. */
  lemma StepAtLeast(start: real, stop: real, step: real, k: real)
    requires step > 0.0 && k >= (stop - start) / step
    ensures start + k * step >= stop
  {
    var q := (stop - start) / step;
    DivMul(stop - start, step);
    MulAtMost(q, k, step);
  }

  /** More than (stop - start) / step steps pass stop. */
  lemma StepPast(start: real, stop: real, step: real, k: real)
    requires step > 0.0 && k > (stop - start) / step
    ensures start + k * step > stop
  {
    var q := (stop - start) / step;
    DivMul(stop - start, step);
    MulLess(q, k, step);
  }

  /** A non-negative number of steps does not go below start. */
  lemma StepFrom(start: real, step: real, k: real)
    requires step > 0.0 && k >= 0.0
    ensures start + k * step >= start
  {
    MulAtMost(0.0, k, step);
  }

  lemma MulCancel(x: real, y: real, step: real)
    requires step > 0.0 && x * step == y * step
    ensures x == y
  {
    if x < y {
      MulLess(x, y, step);
    } else if y < x {
      MulLess(y, x, step);
    }
  }

  /** One more step in the numerator is one more in the quotient. */
  lemma DivPlusOne(a: real, step: real)
    requires step > 0.0
    ensures (a + step) / step == a / step + 1.0
  {
    var q := a / step;
    DivMul(a, step);
    DivMul(a + step, step);
    assert (q + 1.0) * step == q * step + step;
    MulCancel((a + step) / step, q + 1.0, step);
  }
}
