/**
  The two numeric policies of the donation service: the star increment a dream
  receives for one donation, and the "chances" a donor unlocks when their
  cumulative giving crosses a threshold.
*/
module Pricing {

  /** The upper ends of the first four star buckets, in ascending order. */
  const StarBounds: seq<real> := [25.0, 50.0, 100.0, 200.0]

  /** Stars added to a dream's rating for a donation of `amount`. */
  function StarsFor(amount: real): (stars: int)
    ensures 1 <= stars <= 5
  {
    if amount <= 25.0 then 1
    else if amount <= 50.0 then 2
    else if amount <= 100.0 then 3
    else if amount <= 200.0 then 4
    else 5
  }

  /** How many of the `bounds` lie strictly below `amount`. */
  function CountBelow(amount: real, bounds: seq<real>): (n: nat)
    ensures n <= |bounds|
  {
    if bounds == [] then 0
    else (if bounds[0] < amount then 1 else 0) + CountBelow(amount, bounds[1..])
  }

  /** The star count is one more than the number of bucket bounds the amount exceeds. */
  lemma StarsAreBucketRank(amount: real)
    ensures StarsFor(amount) == 1 + CountBelow(amount, StarBounds)
  {
    var b1, b2, b3, b4 := StarBounds[1..], StarBounds[2..], StarBounds[3..], StarBounds[4..];
    assert b1 == [50.0, 100.0, 200.0] && b1[1..] == b2;
    assert b2 == [100.0, 200.0] && b2[1..] == b3;
    assert b3 == [200.0] && b3[1..] == b4 && b4 == [];
    assert CountBelow(amount, b3) == if 200.0 < amount then 1 else 0;
    assert CountBelow(amount, b2) == (if 100.0 < amount then 1 else 0) + CountBelow(amount, b3);
    assert CountBelow(amount, b1) == (if 50.0 < amount then 1 else 0) + CountBelow(amount, b2);
    assert CountBelow(amount, StarBounds) == (if 25.0 < amount then 1 else 0) + CountBelow(amount, b1);
  }

  /** A larger donation never earns fewer stars. */
  lemma StarsMonotone(a: real, b: real)
    requires a <= b
    ensures StarsFor(a) <= StarsFor(b)
  {
  }

  /** The bucket edges: each bound itself is in the lower bucket. */
  lemma StarsBoundaries()
    ensures StarsFor(25.0) == 1 && StarsFor(26.0) == 2
    ensures StarsFor(50.0) == 2 && StarsFor(100.0) == 3
    ensures StarsFor(200.0) == 4 && StarsFor(201.0) == 5
  {
  }

  // ---------------------------------------------------------------------------

  /** The multiple-of-15 step below `x`, or 0 when `x` is under 15. */
  function Step15(x: real): int {
    if x >= 15.0 then (x / 15.0).Floor * 15 else 0
  }

  /**
    Chances gained by a donation of `newDonationAmount` from a donor whose previous
    total was `previousTotalDonated`. Each crossed threshold contributes one entry to
    `crossed`; only whether that list is empty decides the gain.
  */
  function ChancesGain(newDonationAmount: real, previousTotalDonated: real): (gain: int)
    ensures gain == 0 || gain == 1
  {
    var newTotalDonated := previousTotalDonated + newDonationAmount;
    var crossed: seq<bool> :=
      (if previousTotalDonated < 1.0 && newTotalDonated >= 1.0 then [true] else [])
      + (if previousTotalDonated < 5.0 && newTotalDonated >= 5.0 then [true] else [])
      + (if newTotalDonated >= 15.0 && (newTotalDonated / 15.0).Floor * 15 > Step15(previousTotalDonated)
         then [true] else []);
    if |crossed| > 0 then 1 else 0
  }

  function Multiple15(k: int): real {
    15.0 * k as real
  }

  /** Going from `previous` to `next` passes 1, 5 or some positive multiple of 15. */
  ghost predicate Crosses(previous: real, next: real) {
    || (previous < 1.0 <= next)
    || (previous < 5.0 <= next)
    || exists k: int :: 1 <= k && previous < Multiple15(k) <= next
  }

  /** `x / 15` is at least `k` exactly when `x` reaches the `k`-th multiple of 15. */
  lemma FloorStep(x: real, k: int)
    ensures (x / 15.0).Floor >= k <==> x >= Multiple15(k)
  {
    var f := (x / 15.0).Floor;
    assert f as real <= x / 15.0 < f as real + 1.0;
    if f >= k {
      assert x / 15.0 >= k as real;
    } else {
      assert (f + 1) as real <= k as real;
      assert x / 15.0 < k as real;
    }
  }

  /** The multiple-of-15 test in `ChancesGain` holds exactly when some multiple is passed. */
  lemma Step15Crossing(previous: real, next: real)
    ensures (next >= 15.0 && (next / 15.0).Floor * 15 > Step15(previous))
        <==> exists k: int :: 1 <= k && previous < Multiple15(k) <= next
  {
    if next >= 15.0 && (next / 15.0).Floor * 15 > Step15(previous) {
      var k := (next / 15.0).Floor;
      FloorStep(next, k);
      FloorStep(next, 1);
      if previous >= 15.0 {
        FloorStep(previous, k);
      }
      assert 1 <= k && previous < Multiple15(k) <= next;
    }
    if k: int :| 1 <= k && previous < Multiple15(k) <= next {
      FloorStep(next, k);
      FloorStep(next, 1);
      FloorStep(previous, k);
      assert next >= 15.0;
    }
  }

  /** The gain is 1 exactly when some threshold lies in (previous, previous + amount]. */
  lemma ChancesGainCrossing(newDonationAmount: real, previousTotalDonated: real)
    ensures ChancesGain(newDonationAmount, previousTotalDonated)
         == if Crosses(previousTotalDonated, previousTotalDonated + newDonationAmount) then 1 else 0
  {
    Step15Crossing(previousTotalDonated, previousTotalDonated + newDonationAmount);
  }

  /**
    0 to 1 crosses the first threshold; 0 to 20 crosses 1, 5 and 15 and still gains a single
    chance; 6 to 8 crosses none; 14 to 15 and 29 to 30 reach a multiple of 15.
  */
  lemma ChancesExamples()
    ensures ChancesGain(1.0, 0.0) == 1
    ensures ChancesGain(20.0, 0.0) == 1
    ensures ChancesGain(2.0, 6.0) == 0
    ensures ChancesGain(1.0, 14.0) == 1
    ensures ChancesGain(1.0, 29.0) == 1
  {
  }

  /** Without a donation nothing is crossed. */
  lemma NoDonationNoChance(previousTotalDonated: real)
    ensures ChancesGain(0.0, previousTotalDonated) == 0
  {
  }
}
