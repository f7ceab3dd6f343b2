/**
  A tiered unit-price table: an ordered list of bounded tiers, each with an
  exclusive upper capacity bound and a unit price, followed by an unbounded
  final tier. A capacity is priced by the first tier whose bound lies above it,
  or by the final tier when none does.

  This is the reference meaning of the calculator's inline price conditionals;
  the Pricing module proves that its two price functions agree with it.
 */
module Tiers {

  /** A bounded tier: capacities strictly below `upperBound` (and not covered
      by an earlier tier) are charged `price` per unit. */
  datatype Tier = Tier(upperBound: real, price: real)

  /** A table of bounded tiers plus the price of the unbounded last tier. */
  datatype Table = Table(bounded: seq<Tier>, lastPrice: real)

  /** Tiers are ordered by strictly increasing bound (contiguous and
      non-overlapping) and their prices never rise as capacity grows:
      the economy-of-scale invariant. */
  predicate WellFormed(t: Table) {
    && (forall i, j :: 0 <= i < j < |t.bounded| ==>
          t.bounded[i].upperBound < t.bounded[j].upperBound
          && t.bounded[j].price <= t.bounded[i].price)
    && (forall i :: 0 <= i < |t.bounded| ==> t.lastPrice <= t.bounded[i].price)
  }

  /** The table without its first bounded tier. */
  function Rest(t: Table): (r: Table)
    requires |t.bounded| > 0
    ensures |r.bounded| == |t.bounded| - 1
  {
    Table(t.bounded[1..], t.lastPrice)
  }

  /** The unit price the table charges for `capacity`. */
  function PriceFor(t: Table, capacity: real): real
    decreases |t.bounded|
  {
    if |t.bounded| == 0 then t.lastPrice
    else if capacity < t.bounded[0].upperBound then t.bounded[0].price
    else PriceFor(Rest(t), capacity)
  }

  /** `i` is the first bounded tier whose bound lies above `capacity`. */
  ghost predicate FirstCovering(t: Table, capacity: real, i: int) {
    && 0 <= i < |t.bounded|
    && capacity < t.bounded[i].upperBound
    && forall j :: 0 <= j < i ==> t.bounded[j].upperBound <= capacity
  }

  lemma RestWellFormed(t: Table)
    requires |t.bounded| > 0 && WellFormed(t)
    ensures WellFormed(Rest(t))
  {
    var r := Rest(t);
    forall i, j | 0 <= i < j < |r.bounded|
      ensures r.bounded[i].upperBound < r.bounded[j].upperBound
      ensures r.bounded[j].price <= r.bounded[i].price
    {
      assert r.bounded[i] == t.bounded[i + 1] && r.bounded[j] == t.bounded[j + 1];
    }
    forall i | 0 <= i < |r.bounded|
      ensures r.lastPrice <= r.bounded[i].price
    {
      assert r.bounded[i] == t.bounded[i + 1];
    }
  }

  /** The price charged is the price of the first covering tier, or the final
      tier's price when no bounded tier covers the capacity. */
  lemma {:induction false} PriceIsFirstCoveringTier(t: Table, capacity: real)
    ensures forall i :: FirstCovering(t, capacity, i) ==>
              PriceFor(t, capacity) == t.bounded[i].price
    ensures (forall j :: 0 <= j < |t.bounded| ==> t.bounded[j].upperBound <= capacity) ==>
              PriceFor(t, capacity) == t.lastPrice
    decreases |t.bounded|
  {
    if |t.bounded| > 0 && t.bounded[0].upperBound <= capacity {
      var r := Rest(t);
      PriceIsFirstCoveringTier(r, capacity);
      forall i | FirstCovering(t, capacity, i)
        ensures PriceFor(t, capacity) == t.bounded[i].price
      {
        assert i > 0;
        forall j | 0 <= j < i - 1 ensures r.bounded[j].upperBound <= capacity {
          assert r.bounded[j] == t.bounded[j + 1];
        }
        assert r.bounded[i - 1] == t.bounded[i];
        assert FirstCovering(r, capacity, i - 1);
      }
      if forall j :: 0 <= j < |t.bounded| ==> t.bounded[j].upperBound <= capacity {
        forall j | 0 <= j < |r.bounded| ensures r.bounded[j].upperBound <= capacity {
          assert r.bounded[j] == t.bounded[j + 1];
        }
      }
    }
  }

  /** In a well-formed table no capacity is charged more than the first tier's price. */
  lemma {:induction false} PriceAtMostFirst(t: Table, capacity: real)
    requires WellFormed(t) && |t.bounded| > 0
    ensures PriceFor(t, capacity) <= t.bounded[0].price
    decreases |t.bounded|
  {
    if capacity >= t.bounded[0].upperBound {
      var r := Rest(t);
      RestWellFormed(t);
      if |r.bounded| > 0 {
        PriceAtMostFirst(r, capacity);
        assert r.bounded[0] == t.bounded[1];
      }
    }
  }

  /** Economy of scale: in a well-formed table the unit price never increases
      as the capacity grows. */
  lemma {:induction false} PriceNonIncreasing(t: Table, small: real, large: real)
    requires WellFormed(t) && small <= large
    ensures PriceFor(t, large) <= PriceFor(t, small)
    decreases |t.bounded|
  {
    if |t.bounded| > 0 {
      if small < t.bounded[0].upperBound {
        PriceAtMostFirst(t, large);
      } else {
        RestWellFormed(t);
        PriceNonIncreasing(Rest(t), small, large);
      }
    }
  }
}
