/**
  Python's `random` module as the backend uses it. The generator is not
  modelled: its outputs are parameters. A unit draw is a value of `random()`,
  in [0, 1); a "below" draw is a value of `_randbelow(n)`, in [0, n).
  `uniform`, `randint` and `choice` are built from those as CPython builds them.
*/
module PyRandom {

  /** `random.uniform(a, b)`, computed as `a + (b - a) * random()`. */
  function Uniform(a: real, b: real, unit: real): (r: real)
    requires a <= b && 0.0 <= unit < 1.0
    ensures a <= r <= b
    ensures a < b ==> r < b
  {
    a + Stretch(b - a, unit)
  }

  /** A unit draw stretched over an interval of width w. */
  function Stretch(w: real, unit: real): (r: real)
    requires w >= 0.0 && 0.0 <= unit < 1.0
    ensures 0.0 <= r <= w
    ensures w > 0.0 ==> r < w
  {
    ScaledUnitBelow(w, unit);
    w * unit
  }

  lemma ScaledUnitBelow(w: real, unit: real)
    requires w >= 0.0 && 0.0 <= unit < 1.0
    ensures 0.0 <= w * unit <= w
    ensures w > 0.0 ==> w * unit < w
  {
    assert w - w * unit == w * (1.0 - unit);
    assert 1.0 - unit > 0.0;
  }

  /** Every value in [a, b) is a possible result of `uniform(a, b)`. */
  lemma UniformCovers(a: real, b: real, r: real)
    requires a <= r < b
    ensures 0.0 <= (r - a) / (b - a) < 1.0
    ensures Uniform(a, b, (r - a) / (b - a)) == r
  {
    var w := b - a;
    var u := (r - a) / w;
    assert u * w == r - a;
    assert (1.0 - u) * w == b - r;
    PositiveFactor(1.0 - u, w);
  }

  lemma PositiveFactor(x: real, w: real)
    requires w > 0.0 && x * w > 0.0
    ensures x > 0.0
  {
  }

  /** `random.randint(a, b)`, computed as `a + _randbelow(b - a + 1)`. */
  function RandInt(a: int, b: int, below: nat): (r: int)
    requires a <= b && below < b - a + 1
    ensures a <= r <= b
  {
    a + below
  }

  /** Every value in [a, b] is a possible result of `randint(a, b)`, from exactly one draw. */
  lemma RandIntCovers(a: int, b: int, r: int)
    requires a <= r <= b
    ensures RandInt(a, b, r - a) == r
    ensures forall k: nat :: k < b - a + 1 && RandInt(a, b, k) == r ==> k == r - a
  {
  }

  /** `random.choice(xs)`, computed as `xs[_randbelow(len(xs))]`. */
  function Choice<T>(xs: seq<T>, below: nat): (r: T)
    requires below < |xs|
    ensures r in xs
  {
    xs[below]
  }
}
