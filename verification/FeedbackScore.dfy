/** The Bayesian quality multiplier of a rated entry, and the limits of a search. */
module FeedbackScore {
  import opened Reals

  datatype QualityParams = QualityParams(alpha: real, beta: real, minMultiplier: real, enabled: bool)

  const SEARCH_DEFAULT_LIMIT: nat := 10
  const SEARCH_MAX_LIMIT: nat := 50

  datatype Counts = Counts(likes: nat, dislikes: nat)

  /** The prior counts and the floor, with unusable settings replaced. */
  function Usable(p: QualityParams): (q: QualityParams)
    ensures q.alpha > 0.0 && q.beta > 0.0 && 0.0 <= q.minMultiplier <= 1.0
  {
    p.(alpha := if p.alpha <= 0.0 then 2.0 else p.alpha,
       beta := if p.beta <= 0.0 then 2.0 else p.beta,
       minMultiplier := if p.minMultiplier < 0.0 then 0.0 else if p.minMultiplier > 1.0 then 1.0 else p.minMultiplier)
  }

  /** The liked part of the whole; over the reals the sum may be grouped by its two parts. */
  function Share(liked: real, disliked: real): real
    requires liked + disliked != 0.0
  {
    liked / (liked + disliked)
  }

  /** The floor, raised by the quality's part of what is left to 1. */
  function Mix(least: real, quality: real): real {
    least + (1.0 - least) * quality
  }

  function Multiplier(p: QualityParams, c: Counts): real {
    if !p.enabled then 1.0
    else
      var q := Usable(p);
      var liked, disliked := c.likes as real + q.alpha, c.dislikes as real + q.beta;
      if liked + disliked == 0.0 then Mix(q.minMultiplier, 0.5)
      else Mix(q.minMultiplier, Share(liked, disliked))
  }

  lemma ShareWithin(x: real, y: real)
    requires 0.0 < x && 0.0 < y
    ensures 0.0 < Share(x, y) < 1.0
  {
    var n := x + y;
    var p := x / n;
    assert p * n == x;
    if p <= 0.0 {
      ProductOrder(p, 0.0, n);
    }
    if p >= 1.0 {
      ProductOrder(1.0, p, n);
    }
  }

  /** The share grows with the likes and shrinks with the dislikes. */
  lemma ShareOrder(x: real, y: real, x': real, y': real)
    requires 0.0 < x <= x' && 0.0 < y' <= y
    ensures Share(x, y) <= Share(x', y')
  {
    ProductOrder(y', y, x);
    ProductOrder(x, x', y);
    assert x * (x' + y') == x * x' + x * y';
    assert x' * (x + y) == x' * x + x' * y;
    FractionOrder(x, x + y, x', x' + y');
  }

  lemma SumWithin(m: real, d: real, p: real)
    requires 0.0 <= m <= 1.0 && d == 1.0 - m && 0.0 <= p <= d && (d > 0.0 ==> p > 0.0)
    ensures m <= m + p <= 1.0 && 0.0 < m + p
  {
  }

  lemma MixWithin(m: real, r: real)
    requires 0.0 <= m <= 1.0 && 0.0 < r < 1.0
    ensures m <= Mix(m, r) <= 1.0 && 0.0 < Mix(m, r)
  {
    var d := 1.0 - m;
    ScaledWithin(d, r);
    SumWithin(m, d, d * r);
  }

  lemma MixOrder(m: real, r: real, r': real)
    requires m <= 1.0 && r <= r'
    ensures Mix(m, r) <= Mix(m, r')
  {
    ProductOrder(r, r', 1.0 - m);
  }

  /** Between the floor and 1, and never 0: a disliked hit is not crushed. */
  lemma MultiplierWithin(p: QualityParams, c: Counts)
    ensures 0.0 < Multiplier(p, c) <= 1.0
    ensures p.enabled ==> Usable(p).minMultiplier <= Multiplier(p, c)
  {
    hide Share, Mix;
    var q := Usable(p);
    var x, y := c.likes as real + q.alpha, c.dislikes as real + q.beta;
    ShareWithin(x, y);
    MixWithin(q.minMultiplier, Share(x, y));
  }

  /** More likes never hurt and more dislikes never help. */
  lemma MultiplierMonotone(p: QualityParams, c: Counts, c': Counts)
    requires c.likes <= c'.likes && c'.dislikes <= c.dislikes
    ensures Multiplier(p, c) <= Multiplier(p, c')
  {
    hide Share, Mix;
    var q := Usable(p);
    var x, y := c.likes as real + q.alpha, c.dislikes as real + q.beta;
    var x', y' := c'.likes as real + q.alpha, c'.dislikes as real + q.beta;
    ShareOrder(x, y, x', y');
    MixOrder(q.minMultiplier, Share(x, y), Share(x', y'));
  }

  /** Settings that make no sense give way to the defaults: prior counts of 2, a floor within 0 and 1. */
  lemma UsableMeans(p: QualityParams)
    ensures Usable(p).alpha == (if p.alpha > 0.0 then p.alpha else 2.0)
    ensures Usable(p).beta == (if p.beta > 0.0 then p.beta else 2.0)
    ensures 0.0 <= p.minMultiplier <= 1.0 ==> Usable(p).minMultiplier == p.minMultiplier
    ensures p.minMultiplier < 0.0 ==> Usable(p).minMultiplier == 0.0
    ensures p.minMultiplier > 1.0 ==> Usable(p).minMultiplier == 1.0
  {
  }

  /** The multiplier as a balance: its height above the floor, weighed with all ratings and prior counts,
      is what lies above the floor weighed with the likes and their prior. */
  lemma MultiplierMeans(p: QualityParams, c: Counts)
    ensures !p.enabled ==> Multiplier(p, c) == 1.0
    ensures p.enabled ==>
      var q, likes, dislikes := Usable(p), c.likes as real, c.dislikes as real;
      (Multiplier(p, c) - q.minMultiplier) * (likes + dislikes + q.alpha + q.beta)
        == (1.0 - q.minMultiplier) * (likes + q.alpha)
  {
    if p.enabled {
      var q := Usable(p);
      var x, y := c.likes as real + q.alpha, c.dislikes as real + q.beta;
      BalanceOf(q.minMultiplier, x, y, x + y);
      assert c.likes as real + c.dislikes as real + q.alpha + q.beta == x + y;
    }
  }

  lemma BalanceOf(least: real, x: real, y: real, n: real)
    requires n == x + y && n != 0.0
    ensures (Mix(least, Share(x, y)) - least) * n == (1.0 - least) * x
  {
    var share := x / n;
    assert share * n == x;
    Associate(1.0 - least, share, n);
  }
}
