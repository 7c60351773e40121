/** Products and fractions of reals, the facts that scores and multipliers are compared by. */
module Reals {
  lemma SquareNonNegative(x: real)
    ensures x * x >= 0.0
  {
  }

  lemma ProductOrder(a: real, b: real, c: real)
    requires a <= b && c >= 0.0
    ensures a * c <= b * c
  {
  }

  lemma StrictProduct(a: real, b: real, c: real)
    requires a < b && c > 0.0
    ensures a * c < b * c
  {
  }

  lemma ScaledOrder(a: real, b: real, m: real, n: real)
    requires 0.0 < a <= b && 0.0 <= m <= n
    ensures a * m <= b * n
  {
    ProductOrder(m, n, b);
    ProductOrder(a, b, m);
  }

  lemma ScaledWithin(a: real, m: real)
    requires 0.0 <= a && 0.0 < m <= 1.0
    ensures 0.0 <= a * m <= a && (a > 0.0 ==> a * m > 0.0)
  {
  }

  lemma OrderFromScaled(a: real, b: real, c: real)
    requires a * c <= b * c && c > 0.0
    ensures a <= b
  {
    if a > b {
      StrictProduct(b, a, c);
    }
  }

  lemma FractionOrder(x: real, n: real, x': real, n': real)
    requires n > 0.0 && n' > 0.0 && x * n' <= x' * n
    ensures x / n <= x' / n'
  {
    var p, p' := x / n, x' / n';
    assert p * n == x && p' * n' == x';
    assert (p * n) * n' == (p * n') * n;
    assert (p' * n') * n == (p' * n) * n';
    OrderFromScaled(p * n', p' * n', n);
    OrderFromScaled(p, p', n');
  }

  lemma Associate(x: real, y: real, z: real)
    ensures x * (y * z) == (x * y) * z
  {
  }

  lemma Distribute(a: real, b: real, c: real)
    ensures (a + b) * c == a * c + b * c
  {
  }

  lemma SquarePositive(x: real, square: real)
    requires x != 0.0 && square == x * x
    ensures square > 0.0
  {
    if x > 0.0 {
      PositiveProduct(x, x, square);
    } else {
      var y := -x;
      assert square == y * y;
      PositiveProduct(y, y, square);
    }
  }

  lemma PositiveProduct(x: real, y: real, product: real)
    requires x > 0.0 && y > 0.0 && product == x * y
    ensures product > 0.0
  {
  }

  lemma SquaresGrow(x: real, y: real)
    requires x > y >= 0.0
    ensures x * x > y * y
  {
    StrictProduct(0.0, x - y, x + y);
    assert (x - y) * (x + y) == x * x - y * y;
  }

  lemma SquaresOrder(x: real, y: real)
    requires x * x <= y * y && y >= 0.0
    ensures x <= y
  {
    if x > y {
      SquaresGrow(x, y);
    }
  }
}
