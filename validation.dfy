/** Slot validation for the car-rental booking: whitelists, dates, age, and their fixed order. */
module Validation {
  import opened Wrappers
  import opened Strings
  import opened Dialog
  import opened Dates
  import opened Whitelists

  /** `isvalid_city`: case-insensitive membership in the 27 supported cities. */
  predicate IsValidCity(city: string) {
    Lower(city) in ValidCities
  }

  /** `isvalid_car_type`: case-insensitive membership in the six car types. */
  predicate IsValidCarType(carType: string) {
    Lower(carType) in CarTypes
  }

  /** A city is supported exactly when it is one of the 27 names, in any mix of letter cases. */
  lemma IsValidCityIffListedIgnoringCase(city: string)
    ensures IsValidCity(city) <==> exists i :: 0 <= i < |ValidCities| && SameIgnoringCase(city, ValidCities[i])
  {
    ValidCitiesAreLowerCase();
    if IsValidCity(city) {
      var i :| 0 <= i < |ValidCities| && ValidCities[i] == Lower(city);
      SameIgnoringCaseIffLowerEqual(city, ValidCities[i]);
    }
    if i :| 0 <= i < |ValidCities| && SameIgnoringCase(city, ValidCities[i]) {
      SameIgnoringCaseIffLowerEqual(city, ValidCities[i]);
    }
  }

  /** A car type is accepted exactly when it is one of the six names, in any mix of letter cases. */
  lemma IsValidCarTypeIffListedIgnoringCase(carType: string)
    ensures IsValidCarType(carType) <==> exists i :: 0 <= i < |CarTypes| && SameIgnoringCase(carType, CarTypes[i])
  {
    CarTypesAreLowerCase();
    if IsValidCarType(carType) {
      var i :| 0 <= i < |CarTypes| && CarTypes[i] == Lower(carType);
      SameIgnoringCaseIffLowerEqual(carType, CarTypes[i]);
    }
    if i :| 0 <= i < |CarTypes| && SameIgnoringCase(carType, CarTypes[i]) {
      SameIgnoringCaseIffLowerEqual(carType, CarTypes[i]);
    }
  }

  /** The city check does not depend on letter case. */
  lemma {:induction false} CityCheckIgnoresCase(a: string, b: string)
    requires SameIgnoringCase(a, b)
    ensures IsValidCity(a) == IsValidCity(b)
  {
    SameIgnoringCaseIffLowerEqual(a, b);
  }

  /** The car-type check does not depend on letter case. */
  lemma {:induction false} CarTypeCheckIgnoresCase(a: string, b: string)
    requires SameIgnoringCase(a, b)
    ensures IsValidCarType(a) == IsValidCarType(b)
  {
    SameIgnoringCaseIffLowerEqual(a, b);
  }

  /** Lower-casing the input first changes nothing: the checks already compare lower-case text. */
  lemma {:induction false} ChecksAcceptLowerCasedInput(s: string)
    ensures IsValidCity(Lower(s)) == IsValidCity(s)
    ensures IsValidCarType(Lower(s)) == IsValidCarType(s)
  {
    LowerIdempotent(s);
  }

  /** A few spellings the whitelists accept and reject. */
  lemma WhitelistSamples()
    ensures IsValidCity("Boston") && IsValidCity("NEW YORK") && IsValidCity("Washington DC")
    ensures IsValidCarType("Luxury") && IsValidCarType("FULL SIZE")
    ensures !IsValidCity("") && !IsValidCarType("")
  {
    assert Lower("Boston") == "boston";
    assert Lower("NEW YORK") == "new york";
    assert Lower("Washington DC") == "washington dc";
    assert Lower("Luxury") == "luxury";
    assert Lower("FULL SIZE") == "full size";
  }

  /** `build_validation_result`: either every slot passed, or one slot failed with a prompt. */
  datatype ValidationResult = Valid | Invalid(violatedSlot: string, message: Message)

  function UnsupportedCityMessage(city: string): string {
    "We currently do not support " + city + " as a valid destination.  Can you try a different city?"
  }
  const UnreadablePickUpDateMessage :=
    "I did not understand your departure date.  When would you like to pick up your car rental?"
  const PickUpTooSoonMessage :=
    "Reservations must be scheduled at least one day in advance.  Can you try a different date?"
  const UnreadableReturnDateMessage :=
    "I did not understand your return date.  When would you like to return your car rental?"
  const ReturnBeforePickUpMessage :=
    "Your return date must be after your pick up date.  Can you try a different return date?"
  const RentalTooLongMessage :=
    "You can reserve a car for up to thirty days.  Can you try a different return date?"
  const UnderageDriverMessage :=
    "Your driver must be at least eighteen to rent a car.  Can you provide the age of a different driver?"
  const UnknownCarTypeMessage :=
    "I did not recognize that model.  What type of car would you like to rent?  Popular cars are economy, midsize, or luxury"

  const MaxRentalDays := 30
  const MinDriverAge := 18

  /**
   * `validate_book_car(slots)`. The driver age is converted with `safe_int` before any check, so
   * an age that is not a number raises. Then the checks run in order and the first one that fails
   * is reported: city, pick-up date (readable, then strictly after today, read with `strptime`,
   * which raises on a date not written `YYYY-MM-DD`), return date, the pair of dates (return
   * strictly after pick-up, at most 30 days apart), driver age, car type. Formatting the
   * unsupported-city message raises `UnicodeEncodeError` for a city name that is not ASCII.
   */
  function Validate(slots: Slots, cal: Calendar): (r: Result<ValidationResult, PyError>)
    ensures r.Failure? ==> r.error == ValueError || r.error == UnicodeEncodeError
  {
    var pickUpCity := TryGet(slots, PickUpCitySlot);
    var pickUpDate := TryGet(slots, PickUpDateSlot);
    var returnDate := TryGet(slots, ReturnDateSlot);
    var carType := TryGet(slots, CarTypeSlot);
    match SafeInt(TryGet(slots, DriverAgeSlot))
    case Failure(e) => Failure(e)
    case Success(driverAge) =>
      if Truthy(pickUpCity) && !IsValidCity(pickUpCity.value) && !IsAscii(pickUpCity.value) then
        Failure(UnicodeEncodeError)
      else if Truthy(pickUpCity) && !IsValidCity(pickUpCity.value) then
        Success(Invalid(PickUpCitySlot, PlainText(UnsupportedCityMessage(pickUpCity.value))))
      else if Truthy(pickUpDate) && cal.parse(pickUpDate.value).None? then
        Success(Invalid(PickUpDateSlot, PlainText(UnreadablePickUpDateMessage)))
      else if Truthy(pickUpDate) && cal.parseIso(pickUpDate.value).None? then
        Failure(ValueError)
      else if Truthy(pickUpDate) && cal.parseIso(pickUpDate.value).value <= cal.today then
        Success(Invalid(PickUpDateSlot, PlainText(PickUpTooSoonMessage)))
      else if Truthy(returnDate) && cal.parse(returnDate.value).None? then
        Success(Invalid(ReturnDateSlot, PlainText(UnreadableReturnDateMessage)))
      else if Truthy(pickUpDate) && Truthy(returnDate)
              && cal.parse(pickUpDate.value).value >= cal.parse(returnDate.value).value then
        Success(Invalid(ReturnDateSlot, PlainText(ReturnBeforePickUpMessage)))
      else if Truthy(pickUpDate) && Truthy(returnDate)
              && GetDayDifference(cal, pickUpDate.value, returnDate.value).value > MaxRentalDays then
        Success(Invalid(ReturnDateSlot, PlainText(RentalTooLongMessage)))
      else if driverAge.Some? && driverAge.value < MinDriverAge then
        Success(Invalid(DriverAgeSlot, PlainText(UnderageDriverMessage)))
      else if Truthy(carType) && !IsValidCarType(carType.value) then
        Success(Invalid(CarTypeSlot, PlainText(UnknownCarTypeMessage)))
      else
        Success(Valid)
  }

  // ---------------------------------------------------------------------------------------------
  // A second description of the same validation: every check on its own, each one judged without
  // looking at the others, and the verdict taken from the first check that does not pass.

  /** What one check says of the slots: nothing against them, a failed slot, or a raised exception. */
  datatype Check = Pass | Fail(violatedSlot: string, message: Message) | Raise(error: PyError)

  function DriverAgeReadableCheck(slots: Slots): Check {
    match SafeInt(TryGet(slots, DriverAgeSlot))
    case Failure(e) => Raise(e)
    case Success(_) => Pass
  }

  function CityCheck(slots: Slots): Check {
    var city := TryGet(slots, PickUpCitySlot);
    if Truthy(city) && !IsValidCity(city.value) then
      if IsAscii(city.value) then Fail(PickUpCitySlot, PlainText(UnsupportedCityMessage(city.value)))
      else Raise(UnicodeEncodeError)
    else Pass
  }

  function PickUpReadableCheck(slots: Slots, cal: Calendar): Check {
    var date := TryGet(slots, PickUpDateSlot);
    if Truthy(date) && cal.parse(date.value).None? then
      Fail(PickUpDateSlot, PlainText(UnreadablePickUpDateMessage))
    else Pass
  }

  function PickUpInFutureCheck(slots: Slots, cal: Calendar): Check {
    var date := TryGet(slots, PickUpDateSlot);
    if Truthy(date) && cal.parse(date.value).Some? then
      match cal.parseIso(date.value)
      case None => Raise(ValueError)
      case Some(day) =>
        if day <= cal.today then Fail(PickUpDateSlot, PlainText(PickUpTooSoonMessage)) else Pass
    else Pass
  }

  function ReturnReadableCheck(slots: Slots, cal: Calendar): Check {
    var date := TryGet(slots, ReturnDateSlot);
    if Truthy(date) && cal.parse(date.value).None? then
      Fail(ReturnDateSlot, PlainText(UnreadableReturnDateMessage))
    else Pass
  }

  /** The pick-up and return days, when both slots are filled and both dates readable. */
  function DatePair(slots: Slots, cal: Calendar): Option<(int, int)> {
    var pickUp := TryGet(slots, PickUpDateSlot);
    var back := TryGet(slots, ReturnDateSlot);
    if Truthy(pickUp) && Truthy(back) && cal.parse(pickUp.value).Some? && cal.parse(back.value).Some?
    then Some((cal.parse(pickUp.value).value, cal.parse(back.value).value))
    else None
  }

  function ReturnAfterPickUpCheck(slots: Slots, cal: Calendar): Check {
    match DatePair(slots, cal)
    case Some((pickUp, back)) =>
      if back <= pickUp then Fail(ReturnDateSlot, PlainText(ReturnBeforePickUpMessage)) else Pass
    case None => Pass
  }

  function RentalLengthCheck(slots: Slots, cal: Calendar): Check {
    match DatePair(slots, cal)
    case Some((pickUp, back)) =>
      if back - pickUp > MaxRentalDays || pickUp - back > MaxRentalDays then
        Fail(ReturnDateSlot, PlainText(RentalTooLongMessage))
      else Pass
    case None => Pass
  }

  function DriverAgeCheck(slots: Slots): Check {
    match SafeInt(TryGet(slots, DriverAgeSlot))
    case Success(Some(age)) =>
      if age < MinDriverAge then Fail(DriverAgeSlot, PlainText(UnderageDriverMessage)) else Pass
    case _ => Pass
  }

  function CarTypeCheck(slots: Slots): Check {
    var carType := TryGet(slots, CarTypeSlot);
    if Truthy(carType) && !IsValidCarType(carType.value) then
      Fail(CarTypeSlot, PlainText(UnknownCarTypeMessage))
    else Pass
  }

  /** All checks, in the order the source runs them. */
  function Checks(slots: Slots, cal: Calendar): (cs: seq<Check>)
    ensures |cs| == 9
  {
    [DriverAgeReadableCheck(slots), CityCheck(slots), PickUpReadableCheck(slots, cal),
     PickUpInFutureCheck(slots, cal), ReturnReadableCheck(slots, cal),
     ReturnAfterPickUpCheck(slots, cal), RentalLengthCheck(slots, cal), DriverAgeCheck(slots),
     CarTypeCheck(slots)]
  }

  /** What a single check reports: a failed slot becomes `Invalid`, an exception is raised. */
  function Verdict(c: Check): Result<ValidationResult, PyError> {
    match c
    case Pass => Success(Valid)
    case Fail(slot, message) => Success(Invalid(slot, message))
    case Raise(e) => Failure(e)
  }

  /** The verdict of the first check that does not pass; `Valid` when every check passes. */
  function FirstVerdict(cs: seq<Check>): Result<ValidationResult, PyError> {
    if cs == [] then Success(Valid)
    else if cs[0] == Pass then FirstVerdict(cs[1..])
    else Verdict(cs[0])
  }

  /** After `k` passing checks, the next check that does not pass decides, or all passed. */
  lemma {:induction false} FirstVerdictIsFirstNonPass(cs: seq<Check>, k: nat)
    requires k <= |cs|
    requires forall j :: 0 <= j < k ==> cs[j] == Pass
    ensures k < |cs| && cs[k] != Pass ==> FirstVerdict(cs) == Verdict(cs[k])
    ensures k == |cs| ==> FirstVerdict(cs) == Success(Valid)
  {
    if k > 0 {
      FirstVerdictIsFirstNonPass(cs[1..], k - 1);
    }
  }

  /** `FirstVerdict` reports success with `Valid` exactly when every check passes. */
  lemma {:induction false} FirstVerdictValidIffAllPass(cs: seq<Check>)
    ensures FirstVerdict(cs) == Success(Valid) <==> forall j :: 0 <= j < |cs| ==> cs[j] == Pass
  {
    if cs != [] {
      FirstVerdictValidIffAllPass(cs[1..]);
      if forall j :: 0 <= j < |cs[1..]| ==> cs[1..][j] == Pass {
        forall j | 0 <= j < |cs| && cs[0] == Pass ensures cs[j] == Pass {
          if j > 0 { assert cs[j] == cs[1..][j - 1]; }
        }
      }
    }
  }

  /** The early-return chain of the source is the first failing check of the list. */
  lemma ValidateIsFirstFailingCheck(slots: Slots, cal: Calendar)
    ensures Validate(slots, cal) == FirstVerdict(Checks(slots, cal))
  {
    var cs := Checks(slots, cal);
    if cs[0] != Pass || cs[1] != Pass {
      AgeOrCityCheckDecides(slots, cal);
    } else if cs[2] != Pass || cs[3] != Pass || cs[4] != Pass {
      SingleDateCheckDecides(slots, cal);
    } else {
      LateChecksDecide(slots, cal);
    }
  }

  /** A driver age that is not a number, or else an unsupported city, decides. */
  lemma AgeOrCityCheckDecides(slots: Slots, cal: Calendar)
    requires Checks(slots, cal)[0] != Pass || Checks(slots, cal)[1] != Pass
    ensures Validate(slots, cal) == FirstVerdict(Checks(slots, cal))
  {
    var cs := Checks(slots, cal);
    if cs[0] != Pass {
      FirstVerdictIsFirstNonPass(cs, 0);
    } else {
      FirstVerdictIsFirstNonPass(cs, 1);
    }
  }

  /** Once the age reads and the city is supported, the first failing single-date check decides. */
  lemma SingleDateCheckDecides(slots: Slots, cal: Calendar)
    requires PassesBefore(slots, cal, 2)
    requires Checks(slots, cal)[2] != Pass || Checks(slots, cal)[3] != Pass || Checks(slots, cal)[4] != Pass
    ensures Validate(slots, cal) == FirstVerdict(Checks(slots, cal))
  {
    var cs := Checks(slots, cal);
    if cs[2] != Pass {
      PickUpReadableCheckDecides(slots, cal);
    } else if cs[3] != Pass {
      PickUpInFutureCheckDecides(slots, cal);
    } else {
      ReturnReadableCheckDecides(slots, cal);
    }
  }

  lemma PickUpReadableCheckDecides(slots: Slots, cal: Calendar)
    requires PassesBefore(slots, cal, 2) && Checks(slots, cal)[2] != Pass
    ensures Validate(slots, cal) == FirstVerdict(Checks(slots, cal))
  {
    var cs := Checks(slots, cal);
    assert SafeInt(TryGet(slots, DriverAgeSlot)).Success? by { assert cs[0] == Pass; }
    assert cs[1] == Pass;
    FirstVerdictIsFirstNonPass(cs, 2);
  }

  lemma PickUpInFutureCheckDecides(slots: Slots, cal: Calendar)
    requires PassesBefore(slots, cal, 3) && Checks(slots, cal)[3] != Pass
    ensures Validate(slots, cal) == FirstVerdict(Checks(slots, cal))
  {
    var cs := Checks(slots, cal);
    var pickUp := TryGet(slots, PickUpDateSlot);
    assert SafeInt(TryGet(slots, DriverAgeSlot)).Success? by { assert cs[0] == Pass; }
    assert cs[1] == Pass;
    assert Truthy(pickUp) ==> cal.parse(pickUp.value).Some? by { assert cs[2] == Pass; }
    FirstVerdictIsFirstNonPass(cs, 3);
  }

  lemma ReturnReadableCheckDecides(slots: Slots, cal: Calendar)
    requires PassesBefore(slots, cal, 4) && Checks(slots, cal)[4] != Pass
    ensures Validate(slots, cal) == FirstVerdict(Checks(slots, cal))
  {
    var cs := Checks(slots, cal);
    var pickUp := TryGet(slots, PickUpDateSlot);
    assert SafeInt(TryGet(slots, DriverAgeSlot)).Success? by { assert cs[0] == Pass; }
    assert cs[1] == Pass;
    assert Truthy(pickUp) ==> cal.parse(pickUp.value).Some? by { assert cs[2] == Pass; }
    assert cs[3] == Pass;
    FirstVerdictIsFirstNonPass(cs, 4);
  }

  /** Once the first five checks pass, the date pair, the age and the car type decide. */
  lemma LateChecksDecide(slots: Slots, cal: Calendar)
    requires PassesBefore(slots, cal, 5)
    ensures Validate(slots, cal) == FirstVerdict(Checks(slots, cal))
  {
    var cs := Checks(slots, cal);
    var pickUp, back := TryGet(slots, PickUpDateSlot), TryGet(slots, ReturnDateSlot);
    assert SafeInt(TryGet(slots, DriverAgeSlot)).Success? by { assert cs[0] == Pass; }
    assert cs[1] == Pass;
    assert Truthy(pickUp) ==> cal.parse(pickUp.value).Some? by { assert cs[2] == Pass; }
    assert Truthy(pickUp) ==> cal.parseIso(pickUp.value).Some? && cal.parseIso(pickUp.value).value > cal.today
      by { assert cs[3] == Pass; }
    assert Truthy(back) ==> cal.parse(back.value).Some? by { assert cs[4] == Pass; }
    if cs[5] != Pass || cs[6] != Pass {
      DatePairCheckDecides(slots, cal);
    } else {
      AgeOrCarTypeCheckDecides(slots, cal);
    }
  }

  /** With both dates readable and the pick-up date in the future, a bad date pair decides. */
  lemma DatePairCheckDecides(slots: Slots, cal: Calendar)
    requires PassesBefore(slots, cal, 5)
    requires SafeInt(TryGet(slots, DriverAgeSlot)).Success?
    requires Truthy(TryGet(slots, PickUpDateSlot)) ==> cal.parse(TryGet(slots, PickUpDateSlot).value).Some?
    requires Truthy(TryGet(slots, ReturnDateSlot)) ==> cal.parse(TryGet(slots, ReturnDateSlot).value).Some?
    requires Checks(slots, cal)[5] != Pass || Checks(slots, cal)[6] != Pass
    ensures Validate(slots, cal) == FirstVerdict(Checks(slots, cal))
  {
    var cs := Checks(slots, cal);
    assert cs[1] == Pass && cs[3] == Pass;
    if cs[5] != Pass {
      FirstVerdictIsFirstNonPass(cs, 5);
    } else {
      FirstVerdictIsFirstNonPass(cs, 6);
    }
  }

  /** Once every date check passes, an underage driver, then an unknown car type, decides. */
  lemma AgeOrCarTypeCheckDecides(slots: Slots, cal: Calendar)
    requires PassesBefore(slots, cal, 7)
    requires SafeInt(TryGet(slots, DriverAgeSlot)).Success?
    requires Truthy(TryGet(slots, PickUpDateSlot)) ==> cal.parse(TryGet(slots, PickUpDateSlot).value).Some?
    requires Truthy(TryGet(slots, ReturnDateSlot)) ==> cal.parse(TryGet(slots, ReturnDateSlot).value).Some?
    ensures Validate(slots, cal) == FirstVerdict(Checks(slots, cal))
  {
    var cs := Checks(slots, cal);
    if cs[7] != Pass {
      DriverAgeCheckDecides(slots, cal);
    } else {
      CarTypeCheckDecides(slots, cal);
    }
  }

  lemma DriverAgeCheckDecides(slots: Slots, cal: Calendar)
    requires PassesBefore(slots, cal, 7) && Checks(slots, cal)[7] != Pass
    requires SafeInt(TryGet(slots, DriverAgeSlot)).Success?
    requires Truthy(TryGet(slots, PickUpDateSlot)) ==> cal.parse(TryGet(slots, PickUpDateSlot).value).Some?
    requires Truthy(TryGet(slots, ReturnDateSlot)) ==> cal.parse(TryGet(slots, ReturnDateSlot).value).Some?
    ensures Validate(slots, cal) == FirstVerdict(Checks(slots, cal))
  {
    var cs := Checks(slots, cal);
    assert cs[1] == Pass && cs[3] == Pass && cs[5] == Pass && cs[6] == Pass;
    FirstVerdictIsFirstNonPass(cs, 7);
  }

  lemma CarTypeCheckDecides(slots: Slots, cal: Calendar)
    requires PassesBefore(slots, cal, 8)
    requires SafeInt(TryGet(slots, DriverAgeSlot)).Success?
    requires Truthy(TryGet(slots, PickUpDateSlot)) ==> cal.parse(TryGet(slots, PickUpDateSlot).value).Some?
    requires Truthy(TryGet(slots, ReturnDateSlot)) ==> cal.parse(TryGet(slots, ReturnDateSlot).value).Some?
    ensures Validate(slots, cal) == FirstVerdict(Checks(slots, cal))
  {
    var cs := Checks(slots, cal);
    assert cs[1] == Pass && cs[3] == Pass && cs[5] == Pass && cs[6] == Pass && cs[7] == Pass;
    if cs[8] != Pass {
      FirstVerdictIsFirstNonPass(cs, 8);
    } else {
      FirstVerdictIsFirstNonPass(cs, 9);
    }
  }

  /** The first `k` checks, in source order, find nothing wrong. */
  predicate PassesBefore(slots: Slots, cal: Calendar, k: nat) {
    k <= 9 && forall j :: 0 <= j < k ==> Checks(slots, cal)[j] == Pass
  }

  /** Only the first check that does not pass decides the outcome; later checks are never reported. */
  lemma ValidateReportsFirstFailure(slots: Slots, cal: Calendar, k: nat)
    requires k < 9 && PassesBefore(slots, cal, k) && !Checks(slots, cal)[k].Pass?
    ensures Validate(slots, cal) == Verdict(Checks(slots, cal)[k])
  {
    ValidateIsFirstFailingCheck(slots, cal);
    FirstVerdictIsFirstNonPass(Checks(slots, cal), k);
  }

  /** The slots are valid exactly when every check passes. */
  lemma ValidateValidIffAllChecksPass(slots: Slots, cal: Calendar)
    ensures Validate(slots, cal) == Success(Valid) <==> PassesBefore(slots, cal, 9)
  {
    var cs := Checks(slots, cal);
    ValidateIsFirstFailingCheck(slots, cal);
    FirstVerdictValidIffAllPass(cs);
  }

  /** Absent, `null` or empty slots are all valid, as long as no driver age was given. */
  lemma EmptySlotsAreValid(slots: Slots, cal: Calendar)
    requires !Truthy(TryGet(slots, PickUpCitySlot)) && !Truthy(TryGet(slots, PickUpDateSlot))
    requires !Truthy(TryGet(slots, ReturnDateSlot)) && !Truthy(TryGet(slots, CarTypeSlot))
    requires TryGet(slots, DriverAgeSlot) == None
    ensures Validate(slots, cal) == Success(Valid)
  {
  }

  /**
   * A driver age that is not a number (the empty string included) raises before any check runs,
   * with the exception `int` raises for it.
   */
  lemma UnreadableDriverAgeRaises(slots: Slots, cal: Calendar)
    requires TryGet(slots, DriverAgeSlot).Some? && ParseInt(TryGet(slots, DriverAgeSlot).value).Failure?
    ensures Validate(slots, cal) == Failure(ParseInt(TryGet(slots, DriverAgeSlot).value).error)
  {
  }

  /**
   * An unsupported city is reported whatever else is wrong, once the driver age reads as a number;
   * a city name that is not ASCII raises instead, while the message is being formatted.
   */
  lemma UnsupportedCityReportedFirst(slots: Slots, cal: Calendar)
    requires SafeInt(TryGet(slots, DriverAgeSlot)).Success?
    requires Truthy(TryGet(slots, PickUpCitySlot)) && !IsValidCity(TryGet(slots, PickUpCitySlot).value)
    ensures var city := TryGet(slots, PickUpCitySlot).value;
            IsAscii(city) ==>
              Validate(slots, cal) == Success(Invalid(PickUpCitySlot, PlainText(UnsupportedCityMessage(city))))
    ensures !IsAscii(TryGet(slots, PickUpCitySlot).value) ==> Validate(slots, cal) == Failure(UnicodeEncodeError)
  {
  }

  /** A readable pick-up date that is today or earlier fails on the pick-up date. */
  lemma PickUpDateMustBeAfterToday(slots: Slots, cal: Calendar)
    requires PassesBefore(slots, cal, 3)
    requires Truthy(TryGet(slots, PickUpDateSlot))
    requires cal.parse(TryGet(slots, PickUpDateSlot).value).Some?
    requires cal.parseIso(TryGet(slots, PickUpDateSlot).value).Some?
    requires cal.parseIso(TryGet(slots, PickUpDateSlot).value).value <= cal.today
    ensures Validate(slots, cal) == Success(Invalid(PickUpDateSlot, PlainText(PickUpTooSoonMessage)))
  {
    ValidateReportsFirstFailure(slots, cal, 3);
  }

  /** When both dates are readable, a return date on or before the pick-up date fails on the return date. */
  lemma ReturnDateMustFollowPickUp(slots: Slots, cal: Calendar)
    requires PassesBefore(slots, cal, 5)
    requires DatePair(slots, cal).Some? && DatePair(slots, cal).value.1 <= DatePair(slots, cal).value.0
    ensures Validate(slots, cal) == Success(Invalid(ReturnDateSlot, PlainText(ReturnBeforePickUpMessage)))
  {
    ValidateReportsFirstFailure(slots, cal, 5);
  }

  /** A return date more than thirty days after the pick-up date fails on the return date. */
  lemma RentalOfAtMostThirtyDays(slots: Slots, cal: Calendar)
    requires PassesBefore(slots, cal, 5)
    requires DatePair(slots, cal).Some?
    requires DatePair(slots, cal).value.1 - DatePair(slots, cal).value.0 > MaxRentalDays
    ensures Validate(slots, cal) == Success(Invalid(ReturnDateSlot, PlainText(RentalTooLongMessage)))
  {
    assert Checks(slots, cal)[5] == Pass;
    ValidateReportsFirstFailure(slots, cal, 6);
  }

  /** A return date one to thirty days after the pick-up date passes both date-pair checks. */
  lemma DatePairWithinRangePasses(slots: Slots, cal: Calendar)
    requires DatePair(slots, cal).Some?
    requires 1 <= DatePair(slots, cal).value.1 - DatePair(slots, cal).value.0 <= MaxRentalDays
    ensures Checks(slots, cal)[5] == Pass && Checks(slots, cal)[6] == Pass
  {
  }

  /** A driver younger than eighteen fails on the driver age once every earlier check passes. */
  lemma UnderageDriverFails(slots: Slots, cal: Calendar, age: int)
    requires PassesBefore(slots, cal, 7)
    requires SafeInt(TryGet(slots, DriverAgeSlot)) == Success(Some(age)) && age < MinDriverAge
    ensures Validate(slots, cal) == Success(Invalid(DriverAgeSlot, PlainText(UnderageDriverMessage)))
  {
    ValidateReportsFirstFailure(slots, cal, 7);
  }
}
