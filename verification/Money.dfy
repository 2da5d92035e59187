/** Money in whole tiyin: splitting an amount by ratios, and taking a percentage. */
module Money {
  import opened Wrappers

  datatype Money = Money(amount: int, currency: string)

  datatype RangeError = NoRatios | NegativeRatio | ZeroRatios | NegativeAmount

  /** The platform's division of big integers: towards zero. */
  function TruncDiv(a: int, b: int): int
    requires b > 0
  {
    if a >= 0 then a / b else -(-a / b)
  }

  function Sum(xs: seq<int>): int {
    if xs == [] then 0 else Sum(xs[..|xs| - 1]) + xs[|xs| - 1]
  }

  ghost predicate Ratios(ratios: seq<int>) { (forall r :: r in ratios ==> r >= 0) && Sum(ratios) > 0 }

  /** The share of the i-th ratio before the remainder is handed out. */
  function Floored(amount: int, ratios: seq<int>, i: nat): int
    requires i < |ratios| && Sum(ratios) > 0
  {
    TruncDiv(amount * ratios[i], Sum(ratios))
  }

  function FlooredShares(amount: int, ratios: seq<int>): (shares: seq<int>)
    requires Sum(ratios) > 0
    ensures |shares| == |ratios|
  {
    seq(|ratios|, i requires 0 <= i < |ratios| => Floored(amount, ratios, i))
  }

  function Remainder(amount: int, ratios: seq<int>): int
    requires Sum(ratios) > 0
  {
    amount - Sum(FlooredShares(amount, ratios))
  }

  /** How much of a share is lost, in fractions of the total of the ratios. */
  function Lost(amount: int, total: int, ratio: int): int
    requires total > 0
  {
    amount * ratio - total * TruncDiv(amount * ratio, total)
  }

  function AllLost(amount: int, total: int, ratios: seq<int>): int
    requires total > 0
  {
    if ratios == [] then 0
    else AllLost(amount, total, ratios[..|ratios| - 1]) + Lost(amount, total, ratios[|ratios| - 1])
  }

  lemma ScaleSum(k: int, a: int, b: int)
    ensures k * (a + b) == k * a + k * b
  {
  }

  lemma LostBounds(amount: int, total: int, ratio: int)
    requires total > 0 && ratio >= 0
    ensures amount >= 0 ==> 0 <= Lost(amount, total, ratio) < total
    ensures amount <= 0 ==> -total < Lost(amount, total, ratio) <= 0
    ensures Lost(amount, total, ratio) == 0 <==> amount * ratio % total == 0
  {
    var p := amount * ratio;
    SignOfProduct(amount, ratio);
    if p >= 0 {
      assert p == total * (p / total) + p % total;
    } else {
      var q := -p / total;
      assert -p == total * q + -p % total;
      NegateFactor(total, q);
      RemainderOfNegative(p, total);
    }
  }

  lemma SignOfProduct(amount: int, ratio: int)
    requires ratio >= 0
    ensures amount >= 0 ==> amount * ratio >= 0
    ensures amount <= 0 ==> amount * ratio <= 0
  {
  }

  lemma NegateFactor(a: int, b: int)
    ensures a * -b == -(a * b)
  {
  }

  lemma RemainderOfNegative(p: int, total: int)
    requires total > 0
    ensures -p % total == 0 <==> p % total == 0
  {
    MultipleIff(p, total);
    MultipleIff(-p, total);
  }

  lemma MultipleIff(p: int, total: int)
    requires total > 0
    ensures p % total == 0 ==> -p % total == 0
  {
    if p % total == 0 {
      var q := p / total;
      assert p == total * q;
      NegateFactor(total, q);
      assert -p == total * -q + 0;
      DivisionIsUnique(-p, total, -q, 0);
    }
  }

  lemma DivisionIsUnique(p: int, total: int, q: int, r: int)
    requires total > 0 && p == total * q + r && 0 <= r < total
    ensures p / total == q && p % total == r
  {
    var d := p / total - q;
    assert p == total * (p / total) + p % total;
    ScaleSum(total, q, d);
    assert total * d == r - p % total;
    if d >= 1 {
      ScaleAtLeast(total, d);
    } else if d <= -1 {
      NegateFactor(total, d);
      ScaleAtLeast(total, -d);
    }
  }

  lemma ScaleAtLeast(total: int, d: int)
    requires total > 0 && d >= 1
    ensures total * d >= total
  {
  }

  /** The most that `count` shares can lose. */
  function Cap(total: int, count: nat): int {
    if count == 0 then 0 else Cap(total, count - 1) + (total - 1)
  }

  lemma {:induction false} CapIsProduct(total: int, count: nat)
    ensures Cap(total, count) == (total - 1) * count
  {
    if count > 0 {
      CapIsProduct(total, count - 1);
      ScaleSum(total - 1, count - 1, 1);
    }
  }

  lemma {:induction false} AllLostBounds(amount: int, total: int, ratios: seq<int>)
    requires total > 0 && forall r :: r in ratios ==> r >= 0
    ensures amount >= 0 ==> 0 <= AllLost(amount, total, ratios) <= Cap(total, |ratios|)
    ensures amount <= 0 ==> -Cap(total, |ratios|) <= AllLost(amount, total, ratios) <= 0
  {
    if ratios != [] {
      var front, last := ratios[..|ratios| - 1], ratios[|ratios| - 1];
      assert last in ratios && forall r :: r in front ==> r in ratios;
      AllLostBounds(amount, total, front);
      LostBounds(amount, total, last);
    }
  }

  lemma {:induction false} NothingLostIff(amount: int, total: int, ratios: seq<int>)
    requires total > 0 && forall r :: r in ratios ==> r >= 0
    ensures AllLost(amount, total, ratios) == 0 <==> forall r :: r in ratios ==> amount * r % total == 0
  {
    if ratios != [] {
      var front, last := ratios[..|ratios| - 1], ratios[|ratios| - 1];
      assert last in ratios && forall r :: r in front ==> r in ratios;
      NothingLostIff(amount, total, front);
      AllLostBounds(amount, total, front);
      LostBounds(amount, total, last);
      assert forall r :: r in ratios <==> r in front || r == last;
    }
  }

  lemma {:induction false} LostInTotal(amount: int, total: int, ratios: seq<int>, shares: seq<int>)
    requires total > 0 && |shares| == |ratios|
    requires forall i :: 0 <= i < |ratios| ==> shares[i] == TruncDiv(amount * ratios[i], total)
    ensures AllLost(amount, total, ratios) == amount * Sum(ratios) - total * Sum(shares)
  {
    if ratios != [] {
      var n := |ratios| - 1;
      LostInTotal(amount, total, ratios[..n], shares[..n]);
      ScaleSum(amount, Sum(ratios[..n]), ratios[n]);
      ScaleSum(total, Sum(shares[..n]), shares[n]);
    }
  }

  lemma LessThanCount(total: int, remainder: int, count: nat)
    requires total > 0 && count > 0
    requires total * remainder <= (total - 1) * count
    ensures remainder < count
  {
    if remainder >= count {
      ScaleSum(total, count, remainder - count);
      ScaleNonNegative(total, remainder - count);
    }
  }

  lemma ScaleNonNegative(a: int, b: int)
    requires a >= 0 && b >= 0
    ensures a * b >= 0
  {
  }

  lemma SignOfFactor(total: int, x: int)
    requires total > 0
    ensures total * x >= 0 <==> x >= 0
    ensures total * x <= 0 <==> x <= 0
  {
    if x >= 1 {
      ScaleAtLeast(total, x);
    } else if x <= -1 {
      NegateFactor(total, x);
      ScaleAtLeast(total, -x);
    }
  }

  /** What is left to hand out is fewer units than there are shares; it is never positive for a
      negative amount, and nothing exactly when every share divides evenly. */
  lemma RemainderBounds(amount: int, ratios: seq<int>)
    requires Ratios(ratios)
    ensures amount >= 0 ==> 0 <= Remainder(amount, ratios) < |ratios|
    ensures amount <= 0 ==> -|ratios| < Remainder(amount, ratios) <= 0
    ensures Remainder(amount, ratios) == 0 <==> forall r :: r in ratios ==> amount * r % Sum(ratios) == 0
  {
    var total, shares := Sum(ratios), FlooredShares(amount, ratios);
    var rest := Remainder(amount, ratios);
    LostInTotal(amount, total, ratios, shares);
    AllLostBounds(amount, total, ratios);
    NothingLostIff(amount, total, ratios);
    CapIsProduct(total, |ratios|);
    ScaleSum(total, Sum(shares), rest);
    assert total * amount == amount * total;
    assert AllLost(amount, total, ratios) == total * rest;
    SignOfFactor(total, rest);
    if amount >= 0 {
      LessThanCount(total, rest, |ratios|);
    }
    if amount <= 0 {
      NegateFactor(total, rest);
      LessThanCount(total, -rest, |ratios|);
    }
  }

  lemma {:induction false} SumUpdate(xs: seq<int>, i: nat, v: int)
    requires i < |xs|
    ensures Sum(xs[i := v]) == Sum(xs) - xs[i] + v
  {
    var n := |xs| - 1;
    if i < n {
      SumUpdate(xs[..n], i, v);
      assert xs[i := v][..n] == xs[..n][i := v];
    } else {
      assert xs[i := v][..n] == xs[..n];
    }
  }

  /** The share handed out for the i-th ratio. */
  function Share(amount: int, ratios: seq<int>, i: nat): int
    requires i < |ratios| && Sum(ratios) > 0
  {
    Floored(amount, ratios, i) + if i < Remainder(amount, ratios) then 1 else 0
  }

  function Amounts(shares: seq<Money>): (r: seq<int>)
    ensures |r| == |shares|
  {
    seq(|shares|, i requires 0 <= i < |shares| => shares[i].amount)
  }

  method CheckRatios(ratios: seq<int>) returns (r: Result<int, RangeError>)
    ensures r == if ratios == [] then Err(NoRatios)
                 else if exists x :: x in ratios && x < 0 then Err(NegativeRatio)
                 else if Sum(ratios) == 0 then Err(ZeroRatios)
                 else Ok(Sum(ratios))
    ensures r.Ok? ==> Ratios(ratios)
  {
    if ratios == [] { return Err(NoRatios); }
    var total := 0;
    for i := 0 to |ratios|
      invariant total == Sum(ratios[..i]) && total >= 0
      invariant forall k :: 0 <= k < i ==> ratios[k] >= 0
    {
      if ratios[i] < 0 {
        assert ratios[i] in ratios;
        return Err(NegativeRatio);
      }
      assert ratios[..i + 1][..i] == ratios[..i];
      total := total + ratios[i];
    }
    assert ratios[..|ratios|] == ratios;
    if total == 0 { return Err(ZeroRatios); }
    return Ok(total);
  }

  method FloorShares(amount: int, ratios: seq<int>, total: int) returns (shares: seq<int>, remainder: int)
    requires Ratios(ratios) && total == Sum(ratios)
    ensures shares == FlooredShares(amount, ratios)
    ensures remainder == Remainder(amount, ratios)
  {
    shares := [];
    remainder := amount;
    for i := 0 to |ratios|
      invariant shares == FlooredShares(amount, ratios)[..i]
      invariant remainder == amount - Sum(shares)
    {
      var share := TruncDiv(amount * ratios[i], total);
      assert (shares + [share])[..i] == shares;
      assert FlooredShares(amount, ratios)[..i + 1] == shares + [share];
      shares := shares + [share];
      remainder := remainder - share;
    }
  }

  method Allocate(money: Money, ratios: seq<int>) returns (r: Result<seq<Money>, RangeError>)
    ensures r.Ok? <==> Ratios(ratios)
    ensures r.Err? ==> r.error == if ratios == [] then NoRatios
                                  else if exists x :: x in ratios && x < 0 then NegativeRatio
                                  else ZeroRatios
    ensures r.Ok? ==> |r.value| == |ratios|
    ensures r.Ok? ==> forall i :: 0 <= i < |ratios| ==>
            r.value[i] == Money(Share(money.amount, ratios, i), money.currency)
    ensures r.Ok? && money.amount >= 0 ==> Sum(Amounts(r.value)) == money.amount
    ensures r.Ok? ==>
      (Sum(Amounts(r.value)) == money.amount
       <==> money.amount >= 0 || forall x :: x in ratios ==> money.amount * x % Sum(ratios) == 0)
  {
    var total := CheckRatios(ratios);
    if total.Err? {
      if Ratios(ratios) { assert false; }
      return Err(total.error);
    }
    ghost var floored := FlooredShares(money.amount, ratios);
    var shares, remainder := FloorShares(money.amount, ratios, total.value);
    RemainderBounds(money.amount, ratios);
    var i := 0;
    while i < remainder
      invariant 0 <= i && (i <= remainder || i == 0)
      invariant |shares| == |floored|
      invariant forall k :: 0 <= k < |floored| ==> shares[k] == floored[k] + if k < i then 1 else 0
      invariant Sum(shares) == Sum(floored) + i
    {
      SumUpdate(shares, i, shares[i] + 1);
      shares := shares[i := shares[i] + 1];
      i := i + 1;
    }
    var parts := seq(|shares|, k requires 0 <= k < |shares| => Money(shares[k], money.currency));
    assert Amounts(parts) == shares;
    r := Ok(parts);
  }

  /** Every share is less than one unit away from its exact part of the amount. */
  lemma SharesAreFair(amount: int, ratios: seq<int>, i: nat)
    requires Ratios(ratios) && amount >= 0 && i < |ratios|
    ensures amount * ratios[i] - Sum(ratios) < Sum(ratios) * Share(amount, ratios, i) <= amount * ratios[i]
            + Sum(ratios)
    ensures Share(amount, ratios, i) >= 0
  {
    var total, f := Sum(ratios), Floored(amount, ratios, i);
    assert ratios[i] in ratios;
    LostBounds(amount, total, ratios[i]);
    ScaleSum(total, f, 1);
    SignOfProduct(amount, ratios[i]);
    SignOfFactor(total, f + 1);
  }

  /** Sums are lost for a negative amount: -1 split in two halves gives nothing to either. */
  lemma NegativeAmountIsLost()
    ensures Ratios([1, 1])
    ensures Share(-1, [1, 1], 0) == 0 && Share(-1, [1, 1], 1) == 0
  {
    var rs := [1, 1];
    assert rs[..1] == [1] && rs[..1][..0] == [];
    assert Sum([1]) == 1;
    assert Sum(rs) == 2;
    RemainderBounds(-1, rs);
  }

  // ---------------------------------------------------------------------------------------
  //  When a share without a ratio is paid
  // ---------------------------------------------------------------------------------------

  /** How many ratios are above zero. */
  function Positives(ratios: seq<int>): nat {
    if ratios == [] then 0 else Positives(ratios[..|ratios| - 1]) + if ratios[|ratios| - 1] > 0 then 1 else 0
  }

  lemma {:induction false} PositivesLose(amount: int, total: int, ratios: seq<int>)
    requires total > 0 && amount >= 0 && forall r :: r in ratios ==> r >= 0
    ensures 0 <= AllLost(amount, total, ratios) <= Cap(total, Positives(ratios))
  {
    if ratios != [] {
      var front, last := ratios[..|ratios| - 1], ratios[|ratios| - 1];
      assert last in ratios && forall r :: r in front ==> r in ratios;
      PositivesLose(amount, total, front);
      if last > 0 { LostBounds(amount, total, last); } else { NothingLostOfZero(amount, total); }
    }
  }

  lemma NothingLostOfZero(amount: int, total: int)
    requires total > 0
    ensures amount * 0 == 0 && Lost(amount, total, 0) == 0
  {
    assert total * 0 == 0;
  }

  lemma {:induction false} SomePositive(ratios: seq<int>)
    requires forall r :: r in ratios ==> r >= 0
    ensures Sum(ratios) >= 0 && (Sum(ratios) > 0 <==> Positives(ratios) > 0)
  {
    if ratios != [] {
      var front, last := ratios[..|ratios| - 1], ratios[|ratios| - 1];
      assert last in ratios && forall r :: r in front ==> r in ratios;
      SomePositive(front);
    }
  }

  lemma RemainderIsLost(amount: int, ratios: seq<int>)
    requires Ratios(ratios)
    ensures AllLost(amount, Sum(ratios), ratios) == Sum(ratios) * Remainder(amount, ratios)
  {
    var total, shares := Sum(ratios), FlooredShares(amount, ratios);
    LostInTotal(amount, total, ratios, shares);
    ScaleSum(total, Sum(shares), Remainder(amount, ratios));
    assert total * amount == amount * total;
  }

  /** The remainder is less than the number of positive ratios. */
  lemma RemainderBelowPositives(amount: int, ratios: seq<int>)
    requires Ratios(ratios) && amount >= 0
    ensures 0 <= Remainder(amount, ratios) < Positives(ratios)
  {
    var total, rest := Sum(ratios), Remainder(amount, ratios);
    RemainderIsLost(amount, ratios);
    PositivesLose(amount, total, ratios);
    SomePositive(ratios);
    CapIsProduct(total, Positives(ratios));
    SignOfFactor(total, rest);
    LessThanCount(total, rest, Positives(ratios));
  }

  /** A zero ratio gets a unit exactly if its position is within the remainder. */
  lemma ZeroRatioPaidIff(amount: int, ratios: seq<int>, i: nat)
    requires Ratios(ratios) && amount >= 0 && i < |ratios| && ratios[i] == 0
    ensures Share(amount, ratios, i) > 0 <==> i < Remainder(amount, ratios)
    ensures Share(amount, ratios, i) <= 1
  {
    NothingLostOfZero(amount, Sum(ratios));
  }

  /** One unit short of the total, every positive ratio loses as much as it can. */
  lemma LostAtWorst(total: int, ratio: int)
    requires 0 < ratio <= total
    ensures Lost(total - 1, total, ratio) == total - ratio
  {
    ScaleSum(total, ratio - 1, 1);
    assert (total - 1) * ratio == total * ratio - ratio;
    assert (total - 1) * ratio == total * (ratio - 1) + (total - ratio);
    DivisionIsUnique((total - 1) * ratio, total, ratio - 1, total - ratio);
    ScaleNonNegative(total - 1, ratio);
  }

  lemma {:induction false} AllLostAtWorst(total: int, ratios: seq<int>)
    requires total > 0 && forall r :: r in ratios ==> 0 <= r <= total
    ensures AllLost(total - 1, total, ratios) == total * Positives(ratios) - Sum(ratios)
  {
    if ratios != [] {
      var front, last := ratios[..|ratios| - 1], ratios[|ratios| - 1];
      assert last in ratios && forall r :: r in front ==> r in ratios;
      AllLostAtWorst(total, front);
      ScaleSum(total, Positives(front), 1);
      if last > 0 { LostAtWorst(total, last); } else { NothingLostOfZero(total - 1, total); }
    } else {
      assert total * 0 == 0;
    }
  }

  lemma {:induction false} RatiosWithinSum(ratios: seq<int>, r: int)
    requires (forall x :: x in ratios ==> x >= 0) && r in ratios
    ensures 0 <= r <= Sum(ratios)
  {
    var front, last := ratios[..|ratios| - 1], ratios[|ratios| - 1];
    assert ratios == front + [last] && last in ratios && forall x :: x in front ==> x in ratios;
    SomePositive(front);
    if r in front { RatiosWithinSum(front, r); }
  }

  lemma RemainderAtWorst(ratios: seq<int>)
    requires Ratios(ratios)
    ensures Remainder(Sum(ratios) - 1, ratios) == Positives(ratios) - 1
  {
    var total := Sum(ratios);
    forall r | r in ratios ensures 0 <= r <= total { RatiosWithinSum(ratios, r); }
    AllLostAtWorst(total, ratios);
    RemainderIsLost(total - 1, ratios);
    ScaleSum(total, Positives(ratios), -1);
    SameFactor(total, Remainder(total - 1, ratios), Positives(ratios) - 1);
  }

  lemma SameFactor(total: int, x: int, y: int)
    requires total > 0 && total * x == total * y
    ensures x == y
  {
    ScaleSum(total, x - y, y);
    SignOfFactor(total, x - y);
  }

  /**
   A zero ratio can be paid, for some amount, exactly if its position, counted from one, is below
   the number of positive ratios.
   */
  lemma ZeroRatioPayable(ratios: seq<int>, i: nat)
    requires Ratios(ratios) && i < |ratios| && ratios[i] == 0
    ensures (exists amount :: amount >= 0 && Share(amount, ratios, i) > 0) <==> i + 1 < Positives(ratios)
  {
    forall amount | amount >= 0 && Share(amount, ratios, i) > 0 ensures i + 1 < Positives(ratios) {
      ZeroRatioPaidIff(amount, ratios, i);
      RemainderBelowPositives(amount, ratios);
    }
    if i + 1 < Positives(ratios) {
      var amount := Sum(ratios) - 1;
      RemainderAtWorst(ratios);
      ZeroRatioPaidIff(amount, ratios, i);
      assert amount >= 0 && Share(amount, ratios, i) > 0;
    }
  }

  /** The unit left over can go to a share whose ratio is zero. */
  lemma ZeroRatioCanBePaid()
    ensures Ratios([0, 1, 1]) && Share(1, [0, 1, 1], 0) == 1
  {
    var rs := [0, 1, 1];
    assert rs[..2] == [0, 1] && [0, 1][..1] == [0] && [0][..0] == [];
    assert Sum([0]) == 0 && Sum([0, 1]) == 1 && Sum(rs) == 2;
    RemainderBounds(1, rs);
    assert 1 * rs[1] % 2 == 1;
    assert rs[1] in rs;
  }

  // ---------------------------------------------------------------------------------------
  //  Percentages, rounded up
  // ---------------------------------------------------------------------------------------

  function Percentage(money: Money, basisPoints: int): Result<Money, RangeError> {
    var product := money.amount * basisPoints;
    if money.amount < 0 then Err(NegativeAmount)
    else Ok(Money(TruncDiv(product + 10000 - 1, 10000), money.currency))
  }

  /** The least whole number of units that is not below the exact percentage. */
  ghost predicate RoundedUp(product: int, r: int) { 10000 * (r - 1) < product <= 10000 * r }

  /** The result is rounded up, the rate being at least zero; below that, exactly when the product
      is above -10000 or one more than a multiple of 10000. */
  lemma PercentageRoundsUp(money: Money, basisPoints: int)
    requires money.amount >= 0
    ensures var p := money.amount * basisPoints;
            RoundedUp(p, Percentage(money, basisPoints).value.amount) <==> p > -10000 || p % 10000 == 1
    ensures basisPoints >= 0 ==>
            RoundedUp(money.amount * basisPoints, Percentage(money, basisPoints).value.amount)
  {
    if basisPoints >= 0 { ScaleNonNegative(money.amount, basisPoints); }
  }

  /** For a negative rate the result can be above the least that suffices: -2 would do here. */
  lemma NegativeRateRoundsTooFar()
    ensures Percentage(Money(20000, "UZS"), -1) == Ok(Money(-1, "UZS"))
    ensures !RoundedUp(20000 * -1, -1) && RoundedUp(20000 * -1, -2)
  {
  }

  /** A commission of at most the whole never exceeds the amount it is taken from. */
  lemma PercentageWithin(money: Money, basisPoints: int)
    requires money.amount >= 0 && 0 <= basisPoints <= 10000
    ensures 0 <= Percentage(money, basisPoints).value.amount <= money.amount
  {
    PercentageRoundsUp(money, basisPoints);
    ScaleNonNegative(money.amount, basisPoints);
    ScaleNonNegative(money.amount, 10000 - basisPoints);
    ScaleSum(money.amount, basisPoints, 10000 - basisPoints);
  }
}
