/**
 * The two whitelists of the booking bot: the 27 supported pick-up cities and the six car types, both
 * spelled in lower case, in the order the source lists them.
 */
module Whitelists {
  import opened Strings

  const ValidCities: seq<string> := [
    "new york", "los angeles", "chicago", "houston", "philadelphia", "phoenix", "san antonio",
    "san diego", "dallas", "san jose", "austin", "jacksonville", "san francisco", "indianapolis",
    "columbus", "fort worth", "charlotte", "detroit", "el paso", "seattle", "denver", "washington dc",
    "memphis", "boston", "nashville", "baltimore", "portland"]

  const CarTypes: seq<string> := ["economy", "standard", "midsize", "full size", "minivan", "luxury"]

  /** The lists have the lengths the source gives them. */
  lemma WhitelistSizes()
    ensures |ValidCities| == 27 && |CarTypes| == 6
  {
  }

  /** Every spelling of a car type in the list is already lower case. */
  lemma CarTypesAreLowerCase()
    ensures forall i :: 0 <= i < |CarTypes| ==> Lower(CarTypes[i]) == CarTypes[i]
  {
    forall i | 0 <= i < |CarTypes| ensures Lower(CarTypes[i]) == CarTypes[i] {
      LowerOfLowerCase(CarTypes[i]);
    }
  }

  /** Every supported city is spelled in lower case. */
  lemma ValidCitiesAreLowerCase()
    ensures forall i :: 0 <= i < |ValidCities| ==> Lower(ValidCities[i]) == ValidCities[i]
  {
    CitiesLowerCaseA();
    CitiesLowerCaseB();
    CitiesLowerCaseC();
    CitiesLowerCaseD();
    CitiesLowerCaseE();
    forall i | 0 <= i < |ValidCities| ensures Lower(ValidCities[i]) == ValidCities[i] {
      LowerOfLowerCase(ValidCities[i]);
    }
  }

  // The cities are checked in blocks of five or six, which keeps each proof small.

  lemma CitiesLowerCaseA()
    ensures forall i :: 0 <= i < 6 ==> IsLowerCase(ValidCities[i])
  {
    assert IsLowerCase(ValidCities[0]);
    assert IsLowerCase(ValidCities[1]);
    assert IsLowerCase(ValidCities[2]);
    assert IsLowerCase(ValidCities[3]);
    assert IsLowerCase(ValidCities[4]);
    assert IsLowerCase(ValidCities[5]);
  }

  lemma CitiesLowerCaseB()
    ensures forall i :: 6 <= i < 12 ==> IsLowerCase(ValidCities[i])
  {
    assert IsLowerCase(ValidCities[6]);
    assert IsLowerCase(ValidCities[7]);
    assert IsLowerCase(ValidCities[8]);
    assert IsLowerCase(ValidCities[9]);
    assert IsLowerCase(ValidCities[10]);
    assert IsLowerCase(ValidCities[11]);
  }

  lemma CitiesLowerCaseC()
    ensures forall i :: 12 <= i < 17 ==> IsLowerCase(ValidCities[i])
  {
    assert IsLowerCase(ValidCities[12]);
    assert IsLowerCase(ValidCities[13]);
    assert IsLowerCase(ValidCities[14]);
    assert IsLowerCase(ValidCities[15]);
    assert IsLowerCase(ValidCities[16]);
  }

  lemma CitiesLowerCaseD()
    ensures forall i :: 17 <= i < 22 ==> IsLowerCase(ValidCities[i])
  {
    assert IsLowerCase(ValidCities[17]);
    assert IsLowerCase(ValidCities[18]);
    assert IsLowerCase(ValidCities[19]);
    assert IsLowerCase(ValidCities[20]);
    assert IsLowerCase(ValidCities[21]);
  }

  lemma CitiesLowerCaseE()
    ensures forall i :: 22 <= i < 27 ==> IsLowerCase(ValidCities[i])
  {
    assert IsLowerCase(ValidCities[22]);
    assert IsLowerCase(ValidCities[23]);
    assert IsLowerCase(ValidCities[24]);
    assert IsLowerCase(ValidCities[25]);
    assert IsLowerCase(ValidCities[26]);
  }
}
