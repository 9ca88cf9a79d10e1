/**
 * `generate_car_price`: a placeholder price that depends on the letters of the pick-up city, the
 * position of the car type in a fixed list, the driver's age and the number of rental days.
 */
module Pricing {
  import opened Strings
  import opened Whitelists
  import opened Validation

  /** `ord(c) - 97` summed over the lower-cased location: 0 for 'a', 25 for 'z', -65 for a space. */
  function LocationCost(location: string): int {
    if location == [] then 0
    else LocationCost(location[..|location| - 1]) + (LowerChar(location[|location| - 1]) as int - 97)
  }

  /** `list.index(x)`: the position of the first occurrence of `x`. */
  function IndexOf(xs: seq<string>, x: string): (i: nat)
    requires x in xs
    ensures i < |xs| && xs[i] == x
    ensures forall j :: 0 <= j < i ==> xs[j] != x
  {
    if xs[0] == x then 0 else 1 + IndexOf(xs[1..], x)
  }

  /**
   * The car type's position in the list; a car type that is not in the list, compared exactly and
   * with its letter case, is replaced by `economy` first.
   */
  function CarTypeIndex(carType: string): (i: nat)
    ensures i < |CarTypes|
    ensures carType in CarTypes ==> CarTypes[i] == carType
    ensures carType !in CarTypes ==> i == 0
  {
    CarTypesAreLowerCase();
    var chosen := if carType in CarTypes then carType else CarTypes[0];
    IndexOf(CarTypes, Lower(chosen))
  }

  /**
   * The driver age as `generate_car_price` receives it. The booking handler passes the slot's text
   * unconverted, and Python 2 orders every number before every string, so `age < 25` is false for
   * text.
   */
  datatype AgeArg = AgeYears(years: int) | AgeText(text: string)

  /** 1.10 for a driver younger than 25, else 1. */
  function AgeMultiplier(age: AgeArg): real {
    match age
    case AgeYears(n) => if n < 25 then 1.1 else 1.0
    case AgeText(_) => 1.0
  }

  /** 50 per position of the car type in the list; 55 for a driver younger than 25. */
  function CarTypeSurcharge(carType: string, age: AgeArg): real {
    if age.AgeYears? && age.years < 25 then (CarTypeIndex(carType) * 55) as real
    else (CarTypeIndex(carType) * 50) as real
  }

  /** The price of one rental day. It does not depend on the number of days. */
  function DailyRate(location: string, age: AgeArg, carType: string): real {
    (100 + LocationCost(location)) as real + CarTypeSurcharge(carType, age)
  }

  /** `n` times `x`, as `x` added up `n` times (subtracted for a negative `n`). */
  function Times(n: int, x: real): real
    decreases if n < 0 then -n else n
  {
    if n == 0 then 0.0
    else if n < 0 then Times(n + 1, x) - x
    else Times(n - 1, x) + x
  }

  /** The price of a rental: the daily rate, once per day. */
  function CarPrice(location: string, days: int, age: AgeArg, carType: string): real {
    Times(days, DailyRate(location, age, carType))
  }

  /** The loop of `generate_car_price` that adds up `ord(c) - 97` over the lower-cased location. */
  method SumLocationCost(location: string) returns (baseLocationCost: int)
    ensures baseLocationCost == LocationCost(location)
  {
    var lowered := Lower(location);
    baseLocationCost := 0;
    var i := 0;
    while i < |location|
      invariant 0 <= i <= |location|
      invariant baseLocationCost == LocationCost(location[..i])
    {
      assert location[..i + 1][..i] == location[..i];
      baseLocationCost := baseLocationCost + (lowered[i] as int - 97);
      i := i + 1;
    }
    assert location[..i] == location;
  }

  /** `generate_car_price(location, days, age, car_type)`. */
  method GenerateCarPrice(location: string, days: int, age: AgeArg, carType: string) returns (price: real)
    ensures price == CarPrice(location, days, age, carType)
  {
    var baseLocationCost := SumLocationCost(location);
    var ageMultiplier := AgeMultiplier(age);
    var chosen := if carType in CarTypes then carType else CarTypes[0];
    assert Lower(chosen) in CarTypes by {
      CarTypesAreLowerCase();
    }
    var index := IndexOf(CarTypes, Lower(chosen));
    assert index == CarTypeIndex(carType) by {
      CarTypesAreLowerCase();
    }
    var rate := (100 + baseLocationCost) as real + ((index * 50) as real) * ageMultiplier;
    price := (days as real) * rate;
    assert price == CarPrice(location, days, age, carType) by {
      RateFromParts(location, baseLocationCost, age, ageMultiplier, carType, index, rate);
      TimesIsProduct(days, rate);
    }
  }

  /** The rate `generate_car_price` computes from its parts is the daily rate. */
  lemma RateFromParts(location: string, baseLocationCost: int, age: AgeArg, ageMultiplier: real,
                      carType: string, index: int, rate: real)
    requires baseLocationCost == LocationCost(location) && ageMultiplier == AgeMultiplier(age)
    requires index == CarTypeIndex(carType)
    requires rate == (100 + baseLocationCost) as real + ((index * 50) as real) * ageMultiplier
    ensures rate == DailyRate(location, age, carType)
  {
    var young := age.AgeYears? && age.years < 25;
    assert ageMultiplier == if young then 1.1 else 1.0;
    ScaledSurcharge(index, young, ageMultiplier);
  }

  /** Fifty per position scaled by 1.10 is fifty-five per position. */
  lemma ScaledSurcharge(index: int, young: bool, multiplier: real)
    requires multiplier == if young then 1.1 else 1.0
    ensures ((index * 50) as real) * multiplier == (index * (if young then 55 else 50)) as real
  {
  }

  /** Adding `x` up `n` times is multiplying it by `n`. */
  lemma {:induction false} TimesIsProduct(n: int, x: real)
    ensures Times(n, x) == (n as real) * x
    decreases if n < 0 then -n else n
  {
    if n > 0 {
      TimesIsProduct(n - 1, x);
    } else if n < 0 {
      TimesIsProduct(n + 1, x);
    }
  }

  /** The location cost of two pieces of text is the sum of their costs. */
  lemma {:induction false} LocationCostAppend(a: string, b: string)
    ensures LocationCost(a + b) == LocationCost(a) + LocationCost(b)
  {
    if b != [] {
      assert (a + b)[..|a + b| - 1] == a + b[..|b| - 1];
      LocationCostAppend(a, b[..|b| - 1]);
    } else {
      assert a + b == a;
    }
  }

  /** The location cost ignores letter case. */
  lemma {:induction false} LocationCostIgnoresCase(location: string)
    ensures LocationCost(Lower(location)) == LocationCost(location)
  {
    if location != [] {
      var n := |location| - 1;
      assert Lower(location)[..n] == Lower(location[..n]);
      LocationCostIgnoresCase(location[..n]);
    }
  }

  /** A car type that is not in the list, compared exactly, is priced like `economy`. */
  lemma UnlistedCarTypePricedAsEconomy(location: string, age: AgeArg, carType: string)
    requires carType !in CarTypes
    ensures DailyRate(location, age, carType) == DailyRate(location, age, "economy")
  {
    assert CarTypes[0] == "economy";
  }

  /** The economy rate is 100 plus the location cost, whatever the driver's age. */
  lemma EconomyRate(location: string, age: AgeArg)
    ensures DailyRate(location, age, "economy") == (100 + LocationCost(location)) as real
  {
    assert CarTypes[0] == "economy";
  }

  /**
   * The car-type check is case-insensitive but the price list is not: "Luxury" passes validation
   * and is priced like economy.
   */
  lemma CapitalisedCarTypePricedAsEconomy(location: string, age: AgeArg)
    ensures IsValidCarType("Luxury")
    ensures DailyRate(location, age, "Luxury") == DailyRate(location, age, "economy")
  {
    WhitelistSamples();
    assert "Luxury" != CarTypes[5];
    UnlistedCarTypePricedAsEconomy(location, age, "Luxury");
  }

  /** A driver age given as text is rated like a driver of 25: Python 2 orders text after numbers. */
  lemma TextAgeRatedAsAdult(location: string, text: string, carType: string)
    ensures DailyRate(location, AgeText(text), carType) == DailyRate(location, AgeYears(25), carType)
  {
  }

  /** A driver younger than 25 pays 10 % more on the car-type surcharge, and nothing more. */
  lemma YoungDriverSurcharge(location: string, years: int, carType: string)
    requires years < 25
    ensures DailyRate(location, AgeYears(years), carType)
            == DailyRate(location, AgeYears(25), carType) + (CarTypeIndex(carType) * 5) as real
  {
  }

  /** The price is the number of days times a daily rate that does not depend on the number of days. */
  lemma PriceIsDaysTimesDailyRate(location: string, days: int, age: AgeArg, carType: string)
    ensures CarPrice(location, days, age, carType) == (days as real) * DailyRate(location, age, carType)
  {
    TimesIsProduct(days, DailyRate(location, age, carType));
  }

  /** With a positive daily rate, each further day raises the price. */
  lemma PriceGrowsWithDays(location: string, age: AgeArg, carType: string, d1: int, d2: int)
    requires d1 < d2
    requires DailyRate(location, age, carType) > 0.0
    ensures CarPrice(location, d1, age, carType) < CarPrice(location, d2, age, carType)
  {
    TimesGrowsWithCount(d1, d2, DailyRate(location, age, carType));
  }

  lemma TimesGrowsWithCount(n1: int, n2: int, x: real)
    requires n1 < n2 && x > 0.0
    ensures Times(n1, x) < Times(n2, x)
  {
    TimesIsProduct(n1, x);
    TimesIsProduct(n2, x);
    assert (n2 as real) * x - (n1 as real) * x == ((n2 - n1) as real) * x;
  }
}
