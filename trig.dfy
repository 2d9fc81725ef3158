/**
 * The numeric environment the transforms are evaluated in.
 *
 * The source calls Math.cos, Math.sin, Math.PI and Math.sqrt(3). Dafny has no
 * trigonometry, so these four are carried as one value of type Trig, and the
 * facts the transforms rely on are collected in the predicate Lawful. Every
 * property that needs trigonometry takes a Trig and requires Lawful of it; the
 * real cosine, sine, pi and square root of three satisfy it.
 */
module Trigonometry {

  /** cos and sin as real functions, with the constants pi and the square root of 3. */
  datatype Trig = Trig(cos: real -> real, sin: real -> real, pi: real, sqrt3: real)

  /**
   * The third of a turn, (2 * PI) / 3: the phase shift of the b and c phases
   * in utils/math.ts:11-12, defined once here and used by Transforms.ThreePhase.
   */
  function ThirdTurn(t: Trig): real {
    (2.0 * t.pi) / 3.0
  }

  /**
   * x + y as a function, so that the angle-sum laws below are used only where
   * a proof asks for them (through CosAdd and SinAdd) and not on every pair of
   * angles in sight.
   */
  function Sum(x: real, y: real): real {
    x + y
  }

  /**
   * The laws assumed of the environment: pi and sqrt3 are positive, sqrt3
   * squares to 3, the Pythagorean identity, the angle-sum formulas for cos and
   * sin, and the values of cos and sin at 2*pi/3 and at pi/2.
   */
  ghost predicate Lawful(t: Trig) {
    && t.pi > 0.0
    && t.sqrt3 > 0.0
    && t.sqrt3 * t.sqrt3 == 3.0
    && (forall x :: t.sin(x) * t.sin(x) + t.cos(x) * t.cos(x) == 1.0)
    && (forall x, y {:trigger Sum(x, y)} :: t.cos(Sum(x, y)) == t.cos(x) * t.cos(y) - t.sin(x) * t.sin(y))
    && (forall x, y {:trigger Sum(x, y)} :: t.sin(Sum(x, y)) == t.sin(x) * t.cos(y) + t.cos(x) * t.sin(y))
    && t.cos(ThirdTurn(t)) == -0.5
    && t.sin(ThirdTurn(t)) == t.sqrt3 / 2.0
    && t.cos(t.pi / 2.0) == 0.0
    && t.sin(t.pi / 2.0) == 1.0
  }

  lemma Pythagoras(t: Trig, x: real)
    requires Lawful(t)
    ensures t.sin(x) * t.sin(x) + t.cos(x) * t.cos(x) == 1.0
  {}

  lemma CosAdd(t: Trig, x: real, y: real)
    requires Lawful(t)
    ensures t.cos(x + y) == t.cos(x) * t.cos(y) - t.sin(x) * t.sin(y)
  {
    assert t.cos(Sum(x, y)) == t.cos(x) * t.cos(y) - t.sin(x) * t.sin(y);
  }

  lemma SinAdd(t: Trig, x: real, y: real)
    requires Lawful(t)
    ensures t.sin(x + y) == t.sin(x) * t.cos(y) + t.cos(x) * t.sin(y)
  {
    assert t.sin(Sum(x, y)) == t.sin(x) * t.cos(y) + t.cos(x) * t.sin(y);
  }

  /** cos 0 = 1 and sin 0 = 0 follow from the laws: they are not assumed. */
  lemma AtZero(t: Trig)
    requires Lawful(t)
    ensures t.cos(0.0) == 1.0 && t.sin(0.0) == 0.0
  {
    var c, s := t.cos(0.0), t.sin(0.0);
    CosAdd(t, 0.0, 0.0);
    SinAdd(t, 0.0, 0.0);
    Pythagoras(t, 0.0);
    assert c == c * c - s * s;
    assert s * (1.0 - 2.0 * c) == 0.0;
    assert (2.0 * c + 1.0) * (c - 1.0) == 0.0;
    if s != 0.0 {
      assert false;
    }
    assert c * c == 1.0;
  }

  /** cos is even and sin is odd; derived from the angle-sum formulas at x + (-x). */
  lemma Negation(t: Trig, x: real)
    requires Lawful(t)
    ensures t.cos(-x) == t.cos(x) && t.sin(-x) == -t.sin(x)
  {
    AtZero(t);
    assert x + -x == 0.0;
    CosAdd(t, x, -x);
    SinAdd(t, x, -x);
    Pythagoras(t, x);
    RotationInverse(t.cos(x), t.sin(x), t.cos(-x), t.sin(-x));
  }

  /** A unit vector (c, s) and a vector (c', s') that it rotates onto (1, 0) satisfy c' = c and s' = -s. */
  lemma RotationInverse(c: real, s: real, c': real, s': real)
    requires c * c + s * s == 1.0
    requires c * c' - s * s' == 1.0
    requires s * c' + c * s' == 0.0
    ensures c' == c && s' == -s
  {
    assert c' == c' * (c * c + s * s);
    assert c' == c * (c * c' - s * s') + s * (s * c' + c * s');
    assert s' == s' * (c * c + s * s);
    assert s' == c * (s * c' + c * s') - s * (c * c' - s * s');
  }

  lemma CosSub(t: Trig, x: real, y: real)
    requires Lawful(t)
    ensures t.cos(x - y) == t.cos(x) * t.cos(y) + t.sin(x) * t.sin(y)
  {
    assert x - y == x + -y;
    CosAdd(t, x, -y);
    Negation(t, y);
  }
}
