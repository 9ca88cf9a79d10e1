# Car-rental booking webhook

This project models the booking core of a Python 2 webhook for a conversational bot. The bot's
dialog platform calls the webhook once per turn with an intent request: the intent name, the slot
values, the confirmation status, the invocation source and the session attributes. The webhook
answers with one of four dialog actions: elicit a slot, confirm the intent, close, or delegate.

The model covers these parts of the webhook:

- **Dialog data** (`Dialog`): the request and the four responses, the `try_ex` lookups, Python
  truthiness of slot values, and `safe_int`.
- **String helpers** (`Strings`): Python 2's `int()` on a `unicode` string, the decimal encoder it
  runs first included, and `str()` on an integer, with the read-back property `int(str(n)) == n`.
  ASCII `lower()`.
- **Dates** (`Dates`): `get_day_difference` and `add_days`. They work on day numbers. Date parsing
  and printing come from a `Calendar` value, together with today's date. Printing can fail, as
  `strftime` does in Python 2.7 for a year before 1900.
- **Whitelists** (`Whitelists`): the 27 supported cities and the six car types, as the source
  lists them.
- **Validation** (`Validation`): the city and car-type checks and `validate_book_car`, its chain
  of early returns. A second description states each check on its own and takes the verdict of the
  first check that fails. The two are proved equal for every input.
- **Pricing** (`Pricing`): `generate_car_price` as a method with its loop. It is proved equal to a
  specification: the daily rate added up once per day.
- **The booking turn** (`Booking`): `book_car`. The function `BookCarTurn` states the turn branch by
  branch. The method `BookCar` performs the turn step by step: a loop over the slots, then one
  update of a local session map after another. It is proved equal to `BookCarTurn`. Lemmas state what a turn
  promises, over one turn and over two turns in a row.
- **Dispatch** (`Dispatch`): routing by intent name.

The exceptions the model covers are `Failure` values of type `PyError`: `ValueError`, `TypeError`,
`KeyError`, and `UnicodeEncodeError`. The event strings are `unicode`, and Python 2 raises
`UnicodeEncodeError` when it fills a byte-string template with text that is not ASCII. That happens
in the unsupported-city message, the hotel-stay question and the dispatch log line. `int` raises it
too, for a character its decimal encoder refuses. Exceptions the model does not cover are listed
under "## Left out".

Some behaviour of the code differs from what a reader of the bot would expect. The model follows
the code:

- When no slot value is `null`, the turn closes at once with the career message and an empty
  session. This includes an empty slot map. So a fully filled booking is never "placed" with its
  reservation promoted to `lastConfirmedReservation`
  (`Booking.CompleteSlotsCloseWithEmptySession`).
- The driver age is converted with `int` before any check runs. An age that is not a number raises
  `ValueError`, the empty string included, or `UnicodeEncodeError` for a character such as "€". So
  the city is not the first thing checked, and the turn can end in an exception instead of a new
  prompt.
- Pricing falls back to economy when the car type is not in the list, comparing with letter case.
  So "Luxury" passes validation but is priced as economy.
- The handler passes the driver age to the pricing as the slot's text. In Python 2 a string is never
  smaller than a number, so the under-25 multiplier never applies to a stored price.
- A request with only the five booking slots never computes a price in an incomplete turn.
  Fulfilment therefore raises `KeyError` unless an earlier turn left a price in the session.
- A dialog-hook request with no confirmation status falls through to fulfilment.

## Model

| member | source | states |
|---|---|---|
| `Dialog.TryGet` | lambda_function.py:75-86 | a slot reads as present exactly when its key is there with a non-null value, and then reads as that value |
| `Dialog.TryGetAttr` | lambda_function.py:75-86 | a session key reads as present exactly when it is in the session, and then as its value |
| `Dialog.SafeInt` | lambda_function.py:66-72 | `None` stays `None`; text converts exactly when `int` accepts it, giving `int`'s value, and otherwise raises what `int` raises |
| `Dialog.SafeIntOfShownInt` | lambda_function.py:66-72 | an age written as `str(n)` reads back as `n`; an absent age reads as `None` |
| `Dialog.SafeIntOfEmptyRaises` | lambda_function.py:66-72 | `safe_int('')` raises `ValueError` |
| `Strings.ParseShowInt` | lambda_function.py:71 | `int(str(n)) == n` for every integer `n`, with `Strings.ShowInt` printing `str(n)` as at line 330 |
| `Strings.ParseInt` | lambda_function.py:71 | `int(u)` raises `UnicodeEncodeError` exactly when the text holds NUL or a character above U+00FF that is not white space, and otherwise only `ValueError`; `Strings.ParseShowInt` shows it reads back what `str` prints |
| `Strings.EncodeDecimal` | lambda_function.py:71 | the decimal encoder `int(u)` runs first: it succeeds exactly when every character is white space or in U+0001 to U+00FF, writes bytes only, a C white-space byte exactly where the text has Unicode white space, and keeps every other character; otherwise it raises `UnicodeEncodeError` |
| `Strings.IntFromBytes` | lambda_function.py:71 | `int` on the encoded bytes raises only `ValueError` |
| `Strings.LeadingUnicodeSpaceIgnored` | lambda_function.py:71 | Unicode white space in front of the text (U+001C to U+001F, U+00A0 and the like) does not change what `int` reads |
| `Strings.ParseIntSkipsSeparators` | lambda_function.py:71 | `int(u'\x1c16')` and `int(u'\xa016')` are 16 |
| `Strings.ParseIntSamplesRaise` | lambda_function.py:71 | `int` raises `UnicodeEncodeError` on a euro sign and on a NUL, and `ValueError` on "é" |
| `Strings.Lower` | lambda_function.py:98-124 | lower-cases every ASCII letter and keeps the length; `Validation.CityCheckIgnoresCase` and `Pricing.LocationCostIgnoresCase` rest on it |
| `Dates.GetDayDifference` | lambda_function.py:135-138 | succeeds exactly when both dates parse, and is then the absolute distance in days |
| `Dates.AddDays` | lambda_function.py:141-144 | succeeds exactly when the date parses and the new date can be printed (`strftime` raises for a year before 1900), and is then the day `n` later, printed; otherwise raises `ValueError` |
| `Dates.DayDifferenceSymmetric` | lambda_function.py:135-138 | the distance does not depend on argument order, errors included |
| `Dates.DayDifferenceZeroIffSameDay` | lambda_function.py:135-138 | two readable dates are 0 days apart exactly when they are the same day |
| `Dates.AddDaysThenDifference` | lambda_function.py:135-144 | for `n >= 0`, the result reads back as the day `n` after the start and is `n` days from it, when the new date can be printed and reads back |
| `Whitelists.WhitelistSizes` | lambda_function.py:155-160 | 27 cities and 6 car types |
| `Whitelists.CarTypesAreLowerCase` | lambda_function.py:122-124 | every listed car type is already lower case |
| `Validation.CityCheckIgnoresCase` | lambda_function.py:155-160 | two spellings that differ only in letter case are both valid cities or both invalid |
| `Validation.CarTypeCheckIgnoresCase` | lambda_function.py:122-124 | two spellings that differ only in letter case are both valid car types or both invalid |
| `Validation.ChecksAcceptLowerCasedInput` | lambda_function.py:122-160 | lower-casing the input first does not change either whitelist check |
| `Validation.WhitelistSamples` | lambda_function.py:122-160 | "Boston", "NEW YORK", "Washington DC", "Luxury" and "FULL SIZE" are accepted; the empty string is rejected by both checks |
| `Validation.IsValidCity` | lambda_function.py:155-160 | characterised by `Validation.IsValidCityIffListedIgnoringCase` |
| `Validation.IsValidCarType` | lambda_function.py:122-124 | characterised by `Validation.IsValidCarTypeIffListedIgnoringCase` |
| `Whitelists.ValidCitiesAreLowerCase` | lambda_function.py:156-159 | every listed city is already lower case |
| `Validation.IsValidCityIffListedIgnoringCase` | lambda_function.py:155-160 | a city is supported exactly when it is one of the 27 names in some mix of letter cases |
| `Validation.IsValidCarTypeIffListedIgnoringCase` | lambda_function.py:122-124 | a car type is accepted exactly when it is one of the six names in some mix of letter cases |
| `Validation.Validate` | lambda_function.py:163-213 | raises only `ValueError` or `UnicodeEncodeError`; `Validation.ValidateIsFirstFailingCheck` shows it is the first failing check |
| `Validation.ValidateIsFirstFailingCheck` | lambda_function.py:163-213 | the early-return chain gives the verdict of the first failing check, each check judged on its own, in source order |
| `Validation.ValidateReportsFirstFailure` | lambda_function.py:163-213 | when checks `0..k-1` pass and check `k` fails, validation reports check `k` and nothing later |
| `Validation.ValidateValidIffAllChecksPass` | lambda_function.py:163-213 | the slots are valid exactly when all nine checks pass |
| `Validation.EmptySlotsAreValid` | lambda_function.py:163-213 | absent, null or empty slots with no driver age are valid; `Dialog.Truthy` is the truthiness of a slot value the checks test |
| `Validation.UnreadableDriverAgeRaises` | lambda_function.py:167 | a driver age that `int` rejects raises, before any check, the exception `int` raises for it (`ValueError` or `UnicodeEncodeError`) |
| `Validation.UnsupportedCityReportedFirst` | lambda_function.py:170-175 | an unsupported ASCII city is reported on `PickUpCity` with its message, whatever else is wrong; a city that is not ASCII raises `UnicodeEncodeError` |
| `Validation.PickUpDateMustBeAfterToday` | lambda_function.py:177-183 | a readable pick-up date on or before today fails on `PickUpDate` with the advance-notice message |
| `Validation.ReturnDateMustFollowPickUp` | lambda_function.py:190-193 | a return date on or before the pick-up date fails on `ReturnDate` |
| `Validation.RentalOfAtMostThirtyDays` | lambda_function.py:195-197 | a rental over 30 days fails on `ReturnDate` with the thirty-days message |
| `Validation.DatePairWithinRangePasses` | lambda_function.py:190-197 | a return 1 to 30 days after pick-up passes both date-pair checks |
| `Validation.UnderageDriverFails` | lambda_function.py:199-204 | a driver age that `int` reads as less than 18 (" 16" and "016" included) fails on `DriverAge` once the earlier checks pass |
| `Pricing.CarTypeIndex` | lambda_function.py:102-105 | the index is in the list; it is the car type's position when the exact spelling is listed, else economy's |
| `Pricing.SumLocationCost` | lambda_function.py:96-98 | the loop's sum is the location cost of the whole text |
| `Pricing.GenerateCarPrice` | lambda_function.py:89-105 | the price equals the daily rate added up once per day |
| `Pricing.LocationCost` | lambda_function.py:96-98 | characterised by `Pricing.SumLocationCost`, `Pricing.LocationCostAppend` and `Pricing.LocationCostIgnoresCase` |
| `Pricing.DailyRate` | lambda_function.py:100-105 | characterised by `Pricing.EconomyRate`, `Pricing.YoungDriverSurcharge`, `Pricing.TextAgeRatedAsAdult` and `Pricing.UnlistedCarTypePricedAsEconomy`; its helper `Pricing.AgeMultiplier` is line 100 |
| `Pricing.IndexOf` | lambda_function.py:105 | `list.index` gives the first position that holds the value |
| `Pricing.CarPrice` | lambda_function.py:105 | characterised by `Pricing.PriceIsDaysTimesDailyRate` and `Pricing.PriceGrowsWithDays` |
| `Pricing.LocationCostAppend` | lambda_function.py:97-98 | the location cost of joined texts is the sum of their costs |
| `Pricing.LocationCostIgnoresCase` | lambda_function.py:98 | the location cost ignores letter case |
| `Pricing.UnlistedCarTypePricedAsEconomy` | lambda_function.py:101-103 | a car type not listed in exact spelling is priced as economy |
| `Pricing.EconomyRate` | lambda_function.py:105 | economy costs 100 plus the location cost per day, for drivers of any age |
| `Pricing.CapitalisedCarTypePricedAsEconomy` | lambda_function.py:102-105 | "Luxury" passes the car-type check yet is priced as economy |
| `Pricing.TextAgeRatedAsAdult` | lambda_function.py:100 | an age given as text is rated like a driver of 25 |
| `Pricing.YoungDriverSurcharge` | lambda_function.py:100-105 | a driver under 25 pays 10 % more surcharge: 5 extra per car-type position per day, nothing else |
| `Pricing.PriceIsDaysTimesDailyRate` | lambda_function.py:105 | the price is the number of days times a daily rate that does not depend on the days |
| `Pricing.PriceGrowsWithDays` | lambda_function.py:105 | with a positive daily rate, more days cost strictly more |
| `Booking.ReservationOf` | lambda_function.py:253-259 | the tracked reservation is a car reservation with the turn's city, dates and car type |
| `Booking.LastReservation` | lambda_function.py:247-249 | no key gives no reservation; a decoded reservation is the stored one |
| `Booking.TrackedPrice` | lambda_function.py:262-265 | the price is computed exactly when both dates parse |
| `Booking.TrackedSession` | lambda_function.py:253-265 | the current reservation is written; the price is written when all five slots are truthy, and otherwise an incoming price is kept as it was; the step raises exactly when the day count does; no other key changes |
| `Booking.StayQuestion` | lambda_function.py:329-333 | the stay question can be formatted exactly when the location and check-in date are ASCII, and raises `UnicodeEncodeError` otherwise |
| `Booking.Fulfil` | lambda_function.py:372-383 | raises `KeyError` exactly when no price is stored; otherwise closes, fulfilled, with price and current reservation removed, the reservation recorded as last confirmed, and every other key kept |
| `Booking.DialogTurn` | lambda_function.py:267-369 | raises only `ValueError`, `UnicodeEncodeError` or `KeyError` on the price; `Booking.ContinueDialog` performs it and the branch lemmas below describe it |
| `Booking.BookCarTurn` | lambda_function.py:216-383 | raises only `ValueError`, `TypeError`, `UnicodeEncodeError` or `KeyError` on the price; `Booking.BookCar` performs it and the lemmas below describe it |
| `Booking.BookCar` | lambda_function.py:216-383 | the step-by-step turn, with its loop over the slots, equals `BookCarTurn` |
| `Booking.TrackReservation` | lambda_function.py:240-265 | the bookkeeping, step by step, equals `TrackedSession` |
| `Booking.ContinueDialog` | lambda_function.py:267-369 | the dialog-hook branches equal `DialogTurn` |
| `Booking.PlaceReservation` | lambda_function.py:372-383 | the fulfilment, step by step, equals `Fulfil` |
| `Booking.ViolatedSlotIsBookingSlot` | lambda_function.py:163-213 | only the five booking slots are ever reported invalid |
| `Booking.CompleteSlotsCloseWithEmptySession` | lambda_function.py:227-239 | no null slot (`Booking.AllSlotsFilled`, the loop at lines 227-230): the turn closes, fulfilled, with the career message and an empty session |
| `Booking.FiveSlotTurnIsNeverPriced` | lambda_function.py:227-265 | with only the booking slots, an incomplete turn never has all five truthy |
| `Booking.InvalidSlotIsElicited` | lambda_function.py:267-278 | an invalid slot is nulled and elicited with the validation message; other slots are unchanged |
| `Booking.TurnAfterBookkeeping` | lambda_function.py:267-383 | past the bookkeeping, the invocation source alone picks dialog or fulfilment |
| `Booking.ClearedSlotsAreAllNull` | lambda_function.py:290-296 | the reset slot map holds the five booking slots, all null |
| `Booking.DeniedSuggestionRestarts` | lambda_function.py:282-302 | a denied suggestion drops context and current reservation, clears all slots and asks for the city |
| `Booking.DeniedReservationDelegates` | lambda_function.py:282-304 | a denial outside a suggestion drops context and current reservation and delegates with the same slots |
| `Booking.ConfirmedSuggestionContinues` | lambda_function.py:341-369 | an accepted suggestion drops the context, then asks for driver age, else car type, else delegates |
| `Booking.HotelStaySuggestsRental` | lambda_function.py:306-335 | a hotel stay as last reservation yields a rental proposal for that stay with the auto-populate flag set; a check-out day that cannot be read or printed raises `ValueError`, and a location or check-in date that is not ASCII raises `UnicodeEncodeError` |
| `Booking.FulfilmentPlacesReservation` | lambda_function.py:371-383 | fulfilment removes price and current reservation and records the reservation as last confirmed |
| `Booking.FulfilmentWithoutPriceRaises` | lambda_function.py:373 | fulfilment without a stored price raises `KeyError` |
| `Booking.ElicitedSlotIsUnfilled` | lambda_function.py:216-383 | every elicited slot is a booking slot with no value in the slots sent back |
| `Booking.SessionChangesOnlyBookingKeys` | lambda_function.py:216-383 | a turn keeps every session key other than the four booking keys |
| `Booking.DialogTurnKeepsOtherKeys` | lambda_function.py:267-369 | the dialog branches keep every session key other than the four booking keys |
| `Booking.UnpricedTurnKeepsStoredPrice` | lambda_function.py:262-369 | a turn that neither prices nor places the reservation hands back the stored price unchanged |
| `Booking.DialogTurnKeepsPrice` | lambda_function.py:267-369 | the dialog branches that do not close keep the stored price as it was |
| `Booking.ConfirmIntentOnlyForHotelStay` | lambda_function.py:306-335 | a confirmation is only asked for an ASCII-named hotel stay whose check-out day can be printed: the stay's slots, and the session flagged auto-populating |
| `Booking.SuggestedRentalSpansTheStay` | lambda_function.py:318-326 | the proposed return date is the check-out day: it reads back as check-in plus the nights, and is that many days from pick-up |
| `Booking.SuggestionIsFollowedUp` | lambda_function.py:306-335 | the turn after a proposal has the auto-populate flag, no driver age and no car type |
| `Booking.SuggestionThenDenialRestarts` | lambda_function.py:282-335 | proposal then denial: all slots cleared and the city asked again |
| `Booking.SuggestionThenConfirmationAsksDriverAge` | lambda_function.py:306-355 | proposal then acceptance: the driver age is asked next |
| `Booking.StoredPriceIgnoresDriverAge` | lambda_function.py:262-265 | the stored price is the price for a driver of 25, whatever the age slot says |
| `Dispatch.Dispatch` | lambda_function.py:389-422 | an intent name that is not ASCII raises in the log line; help and greeting close with their messages and an empty session; every other intent is a booking turn |

## Left out

- Logging, and the `print` of the request in `dispatch`: they have no effect on the response, with one
  exception. Formatting the log line at line 395 raises for an intent name or a user id that is not
  ASCII. `Dispatch.Dispatch` models this for the intent name; the user id is the `Dispatch.Dispatch`
  line below.
- `lambda_handler`: it sets the process time zone and calls `dispatch`. The time zone only fixes
  what "today" is, and `Calendar.today` is a parameter.
- JSON: stored reservations are typed values (`Stored`), not JSON text. The key order and spelling
  of the serialised reservation are not modelled. Any other non-empty text is modelled as text that
  is not JSON, so `json.loads` raises `ValueError` at line 249.
- Booking.LastReservation: only states the absent key and a decoded stored reservation. The other
  decodings (empty text or `0` read as no reservation, other text raising `ValueError`, a number
  raising `TypeError`) appear in its body only. Text that is JSON but not a reservation of this bot
  is not modelled. The code decodes it without raising. An empty object or array, `false`, `null`,
  `0`, or an object whose `ReservationType` is not "Hotel" is then skipped at line 310, and the turn
  delegates. A non-empty JSON string or array, `true`, or another number raises `TypeError` at
  line 311.
- `dateutil.parser.parse` and `strptime`: they are the functions `parse` and `parseIso` of a
  `Calendar`. How dates are written, exceptions other than `ValueError`, and `OverflowError` are
  not modelled.
- Validation.Validate: times of day are not modelled. The date-pair comparison at lines 190-191
  compares full datetimes. The model compares days, so a same-day pair with a later return time is
  rejected in the model but accepted by the code.
- Strings.Lower: models `unicode.lower()` for ASCII letters only. Other letters with a lower-case
  form (such as "É") keep their case, so the whitelist checks and the location cost can differ from
  the code's on such text.
- Strings.ParseInt: decimal digits of scripts other than ASCII (such as the Arabic-Indic digits
  U+0660 to U+0669) are read by Python 2 as digits. The model's decimal encoder refuses every
  character above U+00FF that is not white space, so it raises `UnicodeEncodeError` for them, and
  so does `Dialog.SafeInt`, which uses it.
- Dates.AddDays: `OverflowError` for a new date after year 9999 or before year 1 is not modelled. Day
  numbers are unbounded.
- Pricing.DailyRate: floating point is not modelled. Prices are exact reals, so the rounding of
  `1.10` and of the products is not captured.
- Pricing.GenerateCarPrice: its result is the exact real price, not the float the code computes.
- Pricing.YoungDriverSurcharge: the 5 extra per position is exact in reals; in floats, `50 * 1.10`
  is rounded.
- The price is computed from the raw city text before validation. The location cost can be
  negative, so `Pricing.PriceGrowsWithDays` needs a positive daily rate.
- Aliasing: `book_car` writes into the request's own session and slot dictionaries. The model
  returns new maps and does not capture that the request is changed.
- A request without a `sessionAttributes` key, or without `currentIntent`, raises `KeyError` in the
  code. The model's request always carries both fields.
- Dispatch.Dispatch: `userId` is not modelled; the code reads it only for logging. The dispatch log
  line also fills the user id into a byte-string template, so a user id that is not ASCII raises
  `UnicodeEncodeError` in the code but not in the model.
- The career-advisor flow, and the commented-out hotel pricing at lines 108-119: they are not part
  of the booking core.
