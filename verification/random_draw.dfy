/**
 The random pick of the shuffle branch of "play next": the expression
 `Math.floor(Math.random() * length)`. `Math.random()` is an outside source of
 randomness, so one of its outcomes is a parameter here: a fraction
 num / den in [0, 1). Every double-precision number in that interval is such
 a fraction. The product is taken exactly; floating-point rounding of the
 multiplication is not modelled.
 */
module RandomDraw {

  /** One outcome of `Math.random()`: the value num / den. */
  datatype Draw = Draw(num: nat, den: nat) {

    /** The value lies in [0, 1), as `Math.random()` promises. */
    predicate Valid() {
      num < den
    }
  }

  /** The positions a shuffle pick may land on in a queue of `length`
      episodes: any position of a non-empty queue, the current one included,
      and 0 for an empty one. */
  predicate InShuffleRange(k: int, length: nat) {
    if length == 0 then k == 0 else 0 <= k < length
  }

  /** floor(u * length) for the draw u = num / den. */
  function ScaledFloor(d: Draw, length: nat): (k: nat)
    requires d.Valid()
    ensures InShuffleRange(k, length)
  {
    ProductBelow(d.num, d.den, length);
    (d.num * length) / d.den
  }

  /** num / den < 1 scales `length` to something below `length`. */
  lemma ProductBelow(num: nat, den: nat, length: nat)
    requires num < den
    ensures length == 0 ==> (num * length) / den == 0
    ensures length > 0 ==> (num * length) / den < length
  {
    if length > 0 {
      assert num * length < den * length by {
        assert (den - num) * length > 0;
      }
    }
  }

  /** Dividing a multiple of n by n gives back the factor. */
  lemma MultipleDivides(k: nat, n: nat)
    requires n > 0
    ensures (k * n) / n == k
  {
    var q, r := (k * n) / n, (k * n) % n;
    assert (k - q) * n == r;
    assert k - q >= 1 ==> (k - q) * n >= n;
    assert k - q <= -1 ==> (k - q) * n <= -(n as int);
  }

  /** Every position the range allows is the pick of some draw: the shuffle
      can reach any episode of the queue, the current one included. */
  lemma EveryPositionDrawable(k: int, length: nat)
    requires InShuffleRange(k, length)
    ensures exists d: Draw :: d.Valid() && ScaledFloor(d, length) == k
  {
    if length == 0 {
      assert ScaledFloor(Draw(0, 1), length) == 0;
    } else {
      var d := Draw(k, length);
      MultipleDivides(k, length);
      assert d.Valid() && ScaledFloor(d, length) == k;
    }
  }
}
