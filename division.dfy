/** Facts about dividing by a positive real, shared by the classifier and the bar grouper. */
module Division {

  lemma DivideNonNegative(t: real, d: real)
    requires t >= 0.0 && d > 0.0
    ensures t / d >= 0.0
  {
  }

  lemma DivideBelowOne(t: real, d: real)
    requires d > 0.0 && t < d
    ensures t / d < 1.0
  {
    var q := t / d;
    assert q * d == t;
  }

  lemma DivideMonotone(s: real, t: real, d: real)
    requires d > 0.0 && s <= t
    ensures s / d <= t / d
  {
    assert t / d - s / d == (t - s) / d;
  }
}
