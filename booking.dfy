/**
 * `book_car`: one turn of the car-booking dialog. The turn reads the slots, keeps the session
 * attributes up to date (the reservation being discussed, its price, the auto-populate flag and the
 * last confirmed reservation) and answers with one of the four dialog actions.
 *
 * `BookCarTurn` says what a turn does, branch by branch; the method `BookCar` does it the way the
 * handler does, with a loop over the slots and one update of the session map after another, and is
 * proved to agree with `BookCarTurn`. The session is a value here: the handler's updates of the
 * request's own dictionary are not modelled. The lemmas state what the turn promises.
 */
module Booking {
  import opened Wrappers
  import opened Strings
  import opened Dialog
  import opened Dates
  import opened Validation
  import opened Pricing

  const CompletionMessage := PlainText(
    "Thanks for answering my questions. Looking at them I believe you are suitable for a Software "
    + "Development Engineer role in a small scale software company or a startup. Type ok to end the session")
  const ReservationPlacedMessage := PlainText("Thanks, I have placed your reservation.")
  const PickUpCityQuestion := PlainText("Where would you like to make your car reservation?")
  const DriverAgeQuestion := PlainText("How old is the driver of this car rental?")
  const CarTypeQuestion := PlainText(
    "What type of car would you like? Popular models are economy, midsize, and luxury.")

  /**
   * The question that proposes a car rental matching a hotel stay. The location and check-in date
   * are filled into a byte-string template, which raises when either is not ASCII.
   */
  function StayQuestion(hotel: Reservation): (r: Result<Message, PyError>)
    requires hotel.HotelReservation?
    ensures r.Success? <==> IsAscii(hotel.location) && IsAscii(hotel.checkInDate)
    ensures r.Failure? ==> r.error == UnicodeEncodeError
  {
    if IsAscii(hotel.location) && IsAscii(hotel.checkInDate) then
      Success(PlainText("Is this car rental for your " + ShowInt(hotel.nights) + " night stay in "
                        + hotel.location + " on " + hotel.checkInDate + "?"))
    else
      Failure(UnicodeEncodeError)
  }

  /** The five slots of the booking intent. */
  const BookingSlots: set<string> := {PickUpCitySlot, PickUpDateSlot, ReturnDateSlot, DriverAgeSlot, CarTypeSlot}

  /** The session keys the turn may write or remove. */
  const BookingKeys: set<string> :=
    {CurrentReservationKey, CurrentReservationPriceKey, ConfirmationContextKey, LastConfirmedReservationKey}

  /** No slot value is `null` (an empty string counts as a value; an empty slot map qualifies). */
  predicate AllSlotsFilled(slots: Slots) {
    forall k :: k in slots ==> slots[k].Some?
  }

  predicate AllBookingSlotsTruthy(slots: Slots) {
    Truthy(TryGet(slots, PickUpCitySlot)) && Truthy(TryGet(slots, PickUpDateSlot))
    && Truthy(TryGet(slots, ReturnDateSlot)) && Truthy(TryGet(slots, DriverAgeSlot))
    && Truthy(TryGet(slots, CarTypeSlot))
  }

  predicate NoBookingSlotTruthy(slots: Slots) {
    !Truthy(TryGet(slots, PickUpCitySlot)) && !Truthy(TryGet(slots, PickUpDateSlot))
    && !Truthy(TryGet(slots, ReturnDateSlot)) && !Truthy(TryGet(slots, DriverAgeSlot))
    && !Truthy(TryGet(slots, CarTypeSlot))
  }

  /** The car reservation the turn is discussing; it records no driver age. */
  function ReservationOf(slots: Slots): (r: Reservation)
    ensures r.CarReservation?
    ensures r.pickUpCity == TryGet(slots, PickUpCitySlot) && r.pickUpDate == TryGet(slots, PickUpDateSlot)
    ensures r.returnDate == TryGet(slots, ReturnDateSlot) && r.carType == TryGet(slots, CarTypeSlot)
  {
    CarReservation(TryGet(slots, PickUpCitySlot), TryGet(slots, PickUpDateSlot),
                   TryGet(slots, ReturnDateSlot), TryGet(slots, CarTypeSlot))
  }

  /** The session the request brings; `null` reads as an empty map. */
  function IncomingSession(req: IntentRequest): Session {
    if req.sessionAttributes.Some? then req.sessionAttributes.value else map[]
  }

  /**
   * The last confirmed reservation, decoded when the attribute is truthy. A stored reservation
   * decodes to itself; other non-empty text is taken as text that is not JSON and raises
   * `ValueError`; a non-zero number is not a string and raises `TypeError`. JSON text that is not a
   * reservation of this bot (which the code decodes, then skips or fails on with `TypeError` when it
   * looks for a hotel stay) is not modelled.
   */
  function LastReservation(session: Session): (r: Result<Option<Reservation>, PyError>)
    ensures LastConfirmedReservationKey !in session ==> r == Success(None)
    ensures r.Success? && r.value.Some? ==> session[LastConfirmedReservationKey] == Stored(r.value.value)
  {
    match TryGetAttr(session, LastConfirmedReservationKey)
    case None => Success(None)
    case Some(Stored(reservation)) => Success(Some(reservation))
    case Some(Text(t)) => if t == "" then Success(None) else Failure(ValueError)
    case Some(Amount(v)) => if v == 0.0 then Success(None) else Failure(TypeError)
  }

  /** The confirmation context read at the start of the turn is the auto-populate flag. */
  predicate IsAutoPopulate(session: Session) {
    TryGetAttr(session, ConfirmationContextKey) == Some(Text(AutoPopulate))
  }

  /**
   * The price stored for a fully described reservation: the day count between the two dates (which
   * raises when either does not parse) times the daily rate. The handler passes the driver age on
   * as the slot's text.
   */
  function TrackedPrice(slots: Slots, cal: Calendar): (r: Result<real, PyError>)
    requires AllBookingSlotsTruthy(slots)
    ensures r.Success? <==> GetDayDifference(cal, slots[PickUpDateSlot].value, slots[ReturnDateSlot].value).Success?
  {
    match GetDayDifference(cal, slots[PickUpDateSlot].value, slots[ReturnDateSlot].value)
    case Failure(e) => Failure(e)
    case Success(days) =>
      Success(CarPrice(slots[PickUpCitySlot].value, days, AgeText(slots[DriverAgeSlot].value),
                       slots[CarTypeSlot].value))
  }

  /**
   * The session after the bookkeeping every incomplete turn does first: the current reservation is
   * written, and the price too when all five slots have a value. No other key changes.
   */
  function TrackedSession(slots: Slots, incoming: Session, cal: Calendar): (r: Result<Session, PyError>)
    ensures r.Failure? <==> AllBookingSlotsTruthy(slots) && TrackedPrice(slots, cal).Failure?
    ensures r.Success? ==> CurrentReservationKey in r.value
                           && r.value[CurrentReservationKey] == Stored(ReservationOf(slots))
    ensures r.Success? ==>
              (CurrentReservationPriceKey in r.value <==>
                 AllBookingSlotsTruthy(slots) || CurrentReservationPriceKey in incoming)
    ensures r.Success? && AllBookingSlotsTruthy(slots) ==>
              r.value[CurrentReservationPriceKey] == Amount(TrackedPrice(slots, cal).value)
    ensures r.Success? && !AllBookingSlotsTruthy(slots) && CurrentReservationPriceKey in incoming ==>
              r.value[CurrentReservationPriceKey] == incoming[CurrentReservationPriceKey]
    ensures r.Success? ==>
              forall k :: k != CurrentReservationKey && k != CurrentReservationPriceKey ==>
                (k in r.value <==> k in incoming) && (k in incoming ==> r.value[k] == incoming[k])
  {
    var session := incoming[CurrentReservationKey := Stored(ReservationOf(slots))];
    if AllBookingSlotsTruthy(slots) then
      match TrackedPrice(slots, cal)
      case Failure(e) => Failure(e)
      case Success(price) => Success(session[CurrentReservationPriceKey := Amount(price)])
    else
      Success(session)
  }

  /** The slots proposed for a car rental that matches a hotel stay. */
  function SuggestedSlots(hotel: Reservation, returnDate: string): Slots
    requires hotel.HotelReservation?
  {
    map[PickUpCitySlot := Some(hotel.location), PickUpDateSlot := Some(hotel.checkInDate),
        ReturnDateSlot := Some(returnDate), CarTypeSlot := None, DriverAgeSlot := None]
  }

  /** Every booking slot set to `null`. */
  const ClearedSlots: Slots :=
    map[PickUpCitySlot := None, PickUpDateSlot := None, ReturnDateSlot := None,
        DriverAgeSlot := None, CarTypeSlot := None]

  /** Placing the reservation: the price and the current reservation leave the session. */
  function Fulfil(slots: Slots, session: Session): (r: Result<Response, PyError>)
    ensures r.Failure? <==> CurrentReservationPriceKey !in session
    ensures r.Failure? ==> r.error == KeyError(CurrentReservationPriceKey)
    ensures r.Success? ==> r.value.Close? && r.value.fulfillmentState == Fulfilled
                           && r.value.message == ReservationPlacedMessage
    ensures r.Success? ==> CurrentReservationPriceKey !in r.value.sessionAttributes
                           && CurrentReservationKey !in r.value.sessionAttributes
                           && LastConfirmedReservationKey in r.value.sessionAttributes
                           && r.value.sessionAttributes[LastConfirmedReservationKey] == Stored(ReservationOf(slots))
    ensures r.Success? ==>
              forall k :: k != CurrentReservationPriceKey && k != CurrentReservationKey
                          && k != LastConfirmedReservationKey ==>
                (k in r.value.sessionAttributes <==> k in session)
                && (k in session ==> r.value.sessionAttributes[k] == session[k])
  {
    if CurrentReservationPriceKey !in session then
      Failure(KeyError(CurrentReservationPriceKey))
    else
      var placed := (session - {CurrentReservationPriceKey} - {CurrentReservationKey})
                      [LastConfirmedReservationKey := Stored(ReservationOf(slots))];
      Success(Close(placed, Fulfilled, ReservationPlacedMessage))
  }

  /** A turn from the dialog code hook, after the bookkeeping. */
  function DialogTurn(req: IntentRequest, cal: Calendar, session: Session, last: Option<Reservation>,
                      autoPopulate: bool): (r: Result<Response, PyError>)
    ensures r.Failure? ==> r.error in {ValueError, UnicodeEncodeError, KeyError(CurrentReservationPriceKey)}
  {
    match Validate(req.slots, cal)
    case Failure(e) => Failure(e)
    case Success(Invalid(slot, message)) =>
      Success(ElicitSlot(session, req.intentName, req.slots[slot := None], slot, message))
    case Success(Valid) =>
      match req.confirmationStatus
      case Some(Denied) =>
        var cleared := session - {ConfirmationContextKey} - {CurrentReservationKey};
        if autoPopulate then
          Success(ElicitSlot(cleared, req.intentName, ClearedSlots, PickUpCitySlot, PickUpCityQuestion))
        else
          Success(Delegate(cleared, req.slots))
      case Some(Unconfirmed) =>
        if (NoBookingSlotTruthy(req.slots) || autoPopulate) && last.Some? && last.value.HotelReservation? then
          var hotel := last.value;
          match AddDays(cal, hotel.checkInDate, hotel.nights)
          case Failure(e) => Failure(e)
          case Success(returnDate) =>
            match StayQuestion(hotel)
            case Failure(e) => Failure(e)
            case Success(question) =>
              Success(ConfirmIntent(session[ConfirmationContextKey := Text(AutoPopulate)], req.intentName,
                                    SuggestedSlots(hotel, returnDate), question))
        else
          Success(Delegate(session, req.slots))
      case Some(Confirmed) =>
        var cleared := session - {ConfirmationContextKey};
        if autoPopulate && !Truthy(TryGet(req.slots, DriverAgeSlot)) then
          Success(ElicitSlot(cleared, req.intentName, req.slots, DriverAgeSlot, DriverAgeQuestion))
        else if autoPopulate && !Truthy(TryGet(req.slots, CarTypeSlot)) then
          Success(ElicitSlot(cleared, req.intentName, req.slots, CarTypeSlot, CarTypeQuestion))
        else
          Success(Delegate(cleared, req.slots))
      case None =>
        Fulfil(req.slots, session)
  }

  /** `book_car(intent_request)`: the whole turn. */
  function BookCarTurn(req: IntentRequest, cal: Calendar): (r: Result<Response, PyError>)
    ensures r.Failure? ==>
              r.error in {ValueError, TypeError, UnicodeEncodeError, KeyError(CurrentReservationPriceKey)}
  {
    if AllSlotsFilled(req.slots) then
      Success(Close(map[], Fulfilled, CompletionMessage))
    else
      var incoming := IncomingSession(req);
      match LastReservation(incoming)
      case Failure(e) => Failure(e)
      case Success(last) =>
        match TrackedSession(req.slots, incoming, cal)
        case Failure(e) => Failure(e)
        case Success(session) =>
          if req.invocationSource == DialogCodeHook then
            DialogTurn(req, cal, session, last, IsAutoPopulate(incoming))
          else
            Fulfil(req.slots, session)
  }

  /**
   * `book_car`, step by step: a loop decides whether every slot has a value; then the bookkeeping
   * updates a copy of the session map and the turn goes on in `ContinueDialog` or `PlaceReservation`.
   */
  method BookCar(req: IntentRequest, cal: Calendar) returns (r: Result<Response, PyError>)
    ensures r == BookCarTurn(req, cal)
  {
    var slots := req.slots;
    var complete := true;
    var pending := slots.Keys;
    while pending != {}
      invariant pending <= slots.Keys
      invariant complete <==> forall k :: k in slots.Keys - pending ==> slots[k].Some?
      decreases |pending|
    {
      var key :| key in pending;
      if slots[key].None? {
        complete := false;
      }
      pending := pending - {key};
    }
    if complete {
      return Success(Close(map[], Fulfilled, CompletionMessage));
    }

    var session := if req.sessionAttributes.Some? then req.sessionAttributes.value else map[];
    var lastConfirmed := LastReservation(session);
    if lastConfirmed.Failure? {
      return Failure(lastConfirmed.error);
    }
    var autoPopulate := TryGetAttr(session, ConfirmationContextKey) == Some(Text(AutoPopulate));
    var tracked := TrackReservation(slots, session, cal);
    if tracked.Failure? {
      return Failure(tracked.error);
    }
    if req.invocationSource == DialogCodeHook {
      r := ContinueDialog(req, cal, tracked.value, lastConfirmed.value, autoPopulate);
    } else {
      r := PlaceReservation(slots, tracked.value);
    }
  }

  /**
   * The bookkeeping at the start of an incomplete turn: the current reservation is written to the
   * session, and its price when all five slots have a value.
   */
  method TrackReservation(slots: Slots, session: Session, cal: Calendar) returns (r: Result<Session, PyError>)
    ensures r == TrackedSession(slots, session, cal)
  {
    var session := session;
    var pickUpCity := TryGet(slots, PickUpCitySlot);
    var pickUpDate := TryGet(slots, PickUpDateSlot);
    var returnDate := TryGet(slots, ReturnDateSlot);
    var driverAge := TryGet(slots, DriverAgeSlot);
    var carType := TryGet(slots, CarTypeSlot);
    var reservation := CarReservation(pickUpCity, pickUpDate, returnDate, carType);
    session := session[CurrentReservationKey := Stored(reservation)];
    if Truthy(pickUpCity) && Truthy(pickUpDate) && Truthy(returnDate) && Truthy(driverAge) && Truthy(carType) {
      var days := GetDayDifference(cal, pickUpDate.value, returnDate.value);
      if days.Failure? {
        return Failure(days.error);
      }
      var price := GenerateCarPrice(pickUpCity.value, days.value, AgeText(driverAge.value), carType.value);
      session := session[CurrentReservationPriceKey := Amount(price)];
    }
    return Success(session);
  }

  /**
   * The dialog code hook's part of `book_car`: validation, then the branch on the confirmation
   * status. A request with no confirmation status goes on to place the reservation.
   */
  method ContinueDialog(req: IntentRequest, cal: Calendar, session: Session, last: Option<Reservation>,
                        autoPopulate: bool) returns (r: Result<Response, PyError>)
    ensures r == DialogTurn(req, cal, session, last, autoPopulate)
  {
    var slots := req.slots;
    var session := session;
    var validation := Validate(slots, cal);
    if validation.Failure? {
      return Failure(validation.error);
    }
    if validation.value.Invalid? {
      slots := slots[validation.value.violatedSlot := None];
      return Success(ElicitSlot(session, req.intentName, slots, validation.value.violatedSlot,
                                validation.value.message));
    }
    var confirmationStatus := req.confirmationStatus;
    if confirmationStatus == Some(Denied) {
      session := session - {ConfirmationContextKey};
      session := session - {CurrentReservationKey};
      if autoPopulate {
        return Success(ElicitSlot(session, req.intentName, ClearedSlots, PickUpCitySlot, PickUpCityQuestion));
      }
      return Success(Delegate(session, req.slots));
    }
    if confirmationStatus == Some(Unconfirmed) {
      if NoBookingSlotTruthy(slots) || autoPopulate {
        if last.Some? && last.value.HotelReservation? {
          var hotel := last.value;
          session := session[ConfirmationContextKey := Text(AutoPopulate)];
          var suggestedReturn := AddDays(cal, hotel.checkInDate, hotel.nights);
          if suggestedReturn.Failure? {
            return Failure(suggestedReturn.error);
          }
          var question := StayQuestion(hotel);
          if question.Failure? {
            return Failure(question.error);
          }
          return Success(ConfirmIntent(session, req.intentName, SuggestedSlots(hotel, suggestedReturn.value),
                                       question.value));
        }
      }
      return Success(Delegate(session, req.slots));
    }
    if confirmationStatus == Some(Confirmed) {
      session := session - {ConfirmationContextKey};
      if autoPopulate {
        if !Truthy(TryGet(slots, DriverAgeSlot)) {
          return Success(ElicitSlot(session, req.intentName, req.slots, DriverAgeSlot, DriverAgeQuestion));
        } else if !Truthy(TryGet(slots, CarTypeSlot)) {
          return Success(ElicitSlot(session, req.intentName, req.slots, CarTypeSlot, CarTypeQuestion));
        }
      }
      return Success(Delegate(session, req.slots));
    }
    r := PlaceReservation(slots, session);
  }

  /**
   * Placing the reservation: `currentReservationPrice` is deleted (a `KeyError` when no price was
   * stored), then `currentReservation`, and the reservation becomes the last confirmed one.
   */
  method PlaceReservation(slots: Slots, session: Session) returns (r: Result<Response, PyError>)
    ensures r == Fulfil(slots, session)
  {
    var session := session;
    if CurrentReservationPriceKey !in session {
      return Failure(KeyError(CurrentReservationPriceKey));
    }
    session := session - {CurrentReservationPriceKey};
    session := session - {CurrentReservationKey};
    session := session[LastConfirmedReservationKey := Stored(ReservationOf(slots))];
    return Success(Close(session, Fulfilled, ReservationPlacedMessage));
  }

  // ---------------------------------------------------------------------------------------------
  // What a turn promises.

  /** Only the five booking slots are ever reported as invalid. */
  lemma ViolatedSlotIsBookingSlot(slots: Slots, cal: Calendar)
    requires Validate(slots, cal).Success? && Validate(slots, cal).value.Invalid?
    ensures Validate(slots, cal).value.violatedSlot in BookingSlots
  {
  }

  /** When no slot value is `null`, the turn closes with an empty session, whatever the session was. */
  lemma CompleteSlotsCloseWithEmptySession(req: IntentRequest, cal: Calendar)
    requires AllSlotsFilled(req.slots)
    ensures BookCarTurn(req, cal) == Success(Close(map[], Fulfilled, CompletionMessage))
  {
  }

  /**
   * A request that carries only the five booking slots never has all five filled in an incomplete
   * turn, so such a turn never computes a price.
   */
  lemma FiveSlotTurnIsNeverPriced(slots: Slots)
    requires slots.Keys <= BookingSlots && !AllSlotsFilled(slots)
    ensures !AllBookingSlotsTruthy(slots)
  {
    var k :| k in slots && slots[k].None?;
    assert !Truthy(TryGet(slots, k));
  }

  /** An invalid slot is cleared and elicited with the validation message; no other slot changes. */
  lemma InvalidSlotIsElicited(req: IntentRequest, cal: Calendar)
    requires !AllSlotsFilled(req.slots) && req.invocationSource == DialogCodeHook
    requires LastReservation(IncomingSession(req)).Success?
    requires TrackedSession(req.slots, IncomingSession(req), cal).Success?
    requires Validate(req.slots, cal).Success? && Validate(req.slots, cal).value.Invalid?
    ensures var r := BookCarTurn(req, cal);
            var v := Validate(req.slots, cal).value;
            r.Success? && r.value.ElicitSlot? && r.value.slotToElicit == v.violatedSlot
            && r.value.message == v.message
            && r.value.slots.Keys == req.slots.Keys + {v.violatedSlot}
            && r.value.slots[v.violatedSlot] == None
            && (forall k :: k in req.slots && k != v.violatedSlot ==> r.value.slots[k] == req.slots[k])
  {
  }

  /** The turn gets past its bookkeeping: some slot is `null`, and neither decoding nor pricing raised. */
  predicate PastBookkeeping(req: IntentRequest, cal: Calendar) {
    !AllSlotsFilled(req.slots) && LastReservation(IncomingSession(req)).Success?
    && TrackedSession(req.slots, IncomingSession(req), cal).Success?
  }

  /** The session once the bookkeeping is done. */
  function SessionAfterBookkeeping(req: IntentRequest, cal: Calendar): Session
    requires PastBookkeeping(req, cal)
  {
    TrackedSession(req.slots, IncomingSession(req), cal).value
  }

  /** Past the bookkeeping, the invocation source alone decides between dialog and fulfilment. */
  lemma TurnAfterBookkeeping(req: IntentRequest, cal: Calendar)
    requires PastBookkeeping(req, cal)
    ensures var session := SessionAfterBookkeeping(req, cal);
            BookCarTurn(req, cal)
              == if req.invocationSource == DialogCodeHook
                 then DialogTurn(req, cal, session, LastReservation(IncomingSession(req)).value,
                                 IsAutoPopulate(IncomingSession(req)))
                 else Fulfil(req.slots, session)
  {
  }

  /** `ClearedSlots` holds the five booking slots, all `null`. */
  lemma ClearedSlotsAreAllNull()
    ensures ClearedSlots.Keys == BookingSlots
    ensures forall k :: k in ClearedSlots ==> ClearedSlots[k] == None
  {
  }

  /**
   * Denying an auto-populated suggestion drops the confirmation context and the current reservation,
   * clears all five slots and asks for the pick-up city again.
   */
  lemma DeniedSuggestionRestarts(req: IntentRequest, cal: Calendar)
    requires PastBookkeeping(req, cal) && req.invocationSource == DialogCodeHook
    requires Validate(req.slots, cal) == Success(Valid)
    requires req.confirmationStatus == Some(Denied) && IsAutoPopulate(IncomingSession(req))
    ensures var r := BookCarTurn(req, cal);
            r.Success? && r.value.ElicitSlot? && r.value.slotToElicit == PickUpCitySlot
            && r.value.slots == ClearedSlots && r.value.message == PickUpCityQuestion
            && ConfirmationContextKey !in r.value.sessionAttributes
            && CurrentReservationKey !in r.value.sessionAttributes
  {
    TurnAfterBookkeeping(req, cal);
  }

  /** Denying a reservation the user described leaves the slots to the platform. */
  lemma DeniedReservationDelegates(req: IntentRequest, cal: Calendar)
    requires PastBookkeeping(req, cal) && req.invocationSource == DialogCodeHook
    requires Validate(req.slots, cal) == Success(Valid)
    requires req.confirmationStatus == Some(Denied) && !IsAutoPopulate(IncomingSession(req))
    ensures var r := BookCarTurn(req, cal);
            r.Success? && r.value.Delegate? && r.value.slots == req.slots
            && ConfirmationContextKey !in r.value.sessionAttributes
            && CurrentReservationKey !in r.value.sessionAttributes
  {
    TurnAfterBookkeeping(req, cal);
  }

  /**
   * After the user accepts a suggestion, the confirmation context is dropped; then the driver age is
   * asked for if it has no value, otherwise the car type if it has none, otherwise the platform
   * takes over.
   */
  lemma ConfirmedSuggestionContinues(req: IntentRequest, cal: Calendar)
    requires PastBookkeeping(req, cal) && req.invocationSource == DialogCodeHook
    requires Validate(req.slots, cal) == Success(Valid)
    requires req.confirmationStatus == Some(Confirmed) && IsAutoPopulate(IncomingSession(req))
    ensures var r := BookCarTurn(req, cal);
            r.Success? && ConfirmationContextKey !in r.value.sessionAttributes
            && (!Truthy(TryGet(req.slots, DriverAgeSlot)) ==>
                  r.value.ElicitSlot? && r.value.slotToElicit == DriverAgeSlot
                  && r.value.message == DriverAgeQuestion && r.value.slots == req.slots)
            && (Truthy(TryGet(req.slots, DriverAgeSlot)) && !Truthy(TryGet(req.slots, CarTypeSlot)) ==>
                  r.value.ElicitSlot? && r.value.slotToElicit == CarTypeSlot
                  && r.value.message == CarTypeQuestion && r.value.slots == req.slots)
            && (Truthy(TryGet(req.slots, DriverAgeSlot)) && Truthy(TryGet(req.slots, CarTypeSlot)) ==>
                  r.value == Delegate(SessionAfterBookkeeping(req, cal) - {ConfirmationContextKey}, req.slots))
  {
    TurnAfterBookkeeping(req, cal);
  }

  /**
   * With nothing filled in yet (or a suggestion pending) and a hotel stay as the last confirmed
   * reservation, the turn proposes a car for that stay and marks the session as auto-populating.
   * A check-in date that cannot be read, or a check-out day that cannot be printed, raises
   * `ValueError`; a location or check-in date that is not ASCII raises while the question is
   * formatted.
   */
  lemma HotelStaySuggestsRental(req: IntentRequest, cal: Calendar, hotel: Reservation)
    requires PastBookkeeping(req, cal) && req.invocationSource == DialogCodeHook
    requires Validate(req.slots, cal) == Success(Valid) && req.confirmationStatus == Some(Unconfirmed)
    requires NoBookingSlotTruthy(req.slots) || IsAutoPopulate(IncomingSession(req))
    requires LastReservation(IncomingSession(req)) == Success(Some(hotel)) && hotel.HotelReservation?
    ensures AddDays(cal, hotel.checkInDate, hotel.nights).Failure? ==> BookCarTurn(req, cal) == Failure(ValueError)
    ensures var r := BookCarTurn(req, cal);
            AddDays(cal, hotel.checkInDate, hotel.nights).Success?
            && IsAscii(hotel.location) && IsAscii(hotel.checkInDate) ==>
            r.Success? && r.value.ConfirmIntent?
            && r.value.sessionAttributes == SessionAfterBookkeeping(req, cal)[ConfirmationContextKey := Text(AutoPopulate)]
            && r.value.slots == SuggestedSlots(hotel, AddDays(cal, hotel.checkInDate, hotel.nights).value)
            && r.value.message == StayQuestion(hotel).value
    ensures AddDays(cal, hotel.checkInDate, hotel.nights).Success?
            && !(IsAscii(hotel.location) && IsAscii(hotel.checkInDate)) ==>
              BookCarTurn(req, cal) == Failure(UnicodeEncodeError)
  {
    TurnAfterBookkeeping(req, cal);
  }

  /**
   * Placing the reservation removes its price and the current reservation from the session and
   * records it as the last confirmed reservation.
   */
  lemma FulfilmentPlacesReservation(req: IntentRequest, cal: Calendar)
    requires PastBookkeeping(req, cal)
    requires req.invocationSource == FulfillmentCodeHook
             || (Validate(req.slots, cal) == Success(Valid) && req.confirmationStatus == None)
    requires CurrentReservationPriceKey in SessionAfterBookkeeping(req, cal)
    ensures var r := BookCarTurn(req, cal);
            r.Success? && r.value.Close? && r.value.fulfillmentState == Fulfilled
            && r.value.message == ReservationPlacedMessage
            && CurrentReservationPriceKey !in r.value.sessionAttributes
            && CurrentReservationKey !in r.value.sessionAttributes
            && LastConfirmedReservationKey in r.value.sessionAttributes
            && r.value.sessionAttributes[LastConfirmedReservationKey] == Stored(ReservationOf(req.slots))
  {
    TurnAfterBookkeeping(req, cal);
  }

  /**
   * Placing a reservation whose price was never computed, in this turn or an earlier one, raises
   * `KeyError` on `currentReservationPrice`.
   */
  lemma FulfilmentWithoutPriceRaises(req: IntentRequest, cal: Calendar)
    requires PastBookkeeping(req, cal)
    requires req.invocationSource == FulfillmentCodeHook
             || (Validate(req.slots, cal) == Success(Valid) && req.confirmationStatus == None)
    requires !AllBookingSlotsTruthy(req.slots) && CurrentReservationPriceKey !in IncomingSession(req)
    ensures BookCarTurn(req, cal) == Failure(KeyError(CurrentReservationPriceKey))
  {
    TurnAfterBookkeeping(req, cal);
  }

  /** Whichever branch elicits a slot, that slot has no value in the slots sent back. */
  lemma ElicitedSlotIsUnfilled(req: IntentRequest, cal: Calendar)
    ensures var r := BookCarTurn(req, cal);
            r.Success? && r.value.ElicitSlot? ==>
              r.value.slotToElicit in BookingSlots && !Truthy(TryGet(r.value.slots, r.value.slotToElicit))
  {
    if PastBookkeeping(req, cal) {
      TurnAfterBookkeeping(req, cal);
      if Validate(req.slots, cal).Success? && Validate(req.slots, cal).value.Invalid? {
        ViolatedSlotIsBookingSlot(req.slots, cal);
      }
    }
  }

  /** A turn writes and removes only the four booking keys; every other session attribute is kept. */
  lemma SessionChangesOnlyBookingKeys(req: IntentRequest, cal: Calendar, k: string)
    requires !AllSlotsFilled(req.slots) && k !in BookingKeys
    ensures var r := BookCarTurn(req, cal);
            var incoming := IncomingSession(req);
            r.Success? ==>
              (k in r.value.sessionAttributes <==> k in incoming)
              && (k in incoming ==> r.value.sessionAttributes[k] == incoming[k])
  {
    if PastBookkeeping(req, cal) {
      TurnAfterBookkeeping(req, cal);
      var session := SessionAfterBookkeeping(req, cal);
      if req.invocationSource == DialogCodeHook {
        DialogTurnKeepsOtherKeys(req, cal, session, LastReservation(IncomingSession(req)).value,
                                 IsAutoPopulate(IncomingSession(req)), k);
      }
    }
  }

  /** The dialog branches write and remove only booking keys. */
  lemma DialogTurnKeepsOtherKeys(req: IntentRequest, cal: Calendar, session: Session, last: Option<Reservation>,
                                 autoPopulate: bool, k: string)
    requires k !in BookingKeys
    ensures var r := DialogTurn(req, cal, session, last, autoPopulate);
            r.Success? ==>
              (k in r.value.sessionAttributes <==> k in session)
              && (k in session ==> r.value.sessionAttributes[k] == session[k])
  {
  }

  /**
   * A turn that neither prices the reservation nor places it hands the stored price back unchanged:
   * the price is only written when all five slots have a value, and only removed on fulfilment.
   */
  lemma UnpricedTurnKeepsStoredPrice(req: IntentRequest, cal: Calendar)
    requires !AllSlotsFilled(req.slots) && !AllBookingSlotsTruthy(req.slots)
    ensures var r := BookCarTurn(req, cal);
            var incoming := IncomingSession(req);
            r.Success? && !r.value.Close? ==>
              (CurrentReservationPriceKey in r.value.sessionAttributes <==> CurrentReservationPriceKey in incoming)
              && (CurrentReservationPriceKey in incoming ==>
                    r.value.sessionAttributes[CurrentReservationPriceKey] == incoming[CurrentReservationPriceKey])
  {
    if PastBookkeeping(req, cal) {
      TurnAfterBookkeeping(req, cal);
      if req.invocationSource == DialogCodeHook {
        DialogTurnKeepsPrice(req, cal, SessionAfterBookkeeping(req, cal),
                             LastReservation(IncomingSession(req)).value, IsAutoPopulate(IncomingSession(req)));
      }
    }
  }

  /** The dialog branches that do not close the conversation keep the stored price as it is. */
  lemma DialogTurnKeepsPrice(req: IntentRequest, cal: Calendar, session: Session, last: Option<Reservation>,
                             autoPopulate: bool)
    ensures var r := DialogTurn(req, cal, session, last, autoPopulate);
            r.Success? && !r.value.Close? ==>
              (CurrentReservationPriceKey in r.value.sessionAttributes <==> CurrentReservationPriceKey in session)
              && (CurrentReservationPriceKey in session ==>
                    r.value.sessionAttributes[CurrentReservationPriceKey] == session[CurrentReservationPriceKey])
  {
  }

  /**
   * A rental is only ever proposed for the stay recorded as the last confirmed reservation: the pick-up
   * city and date are the hotel's, the return date is the check-out day, and the session is marked
   * as auto-populating.
   */
  lemma ConfirmIntentOnlyForHotelStay(req: IntentRequest, cal: Calendar)
    requires BookCarTurn(req, cal).Success? && BookCarTurn(req, cal).value.ConfirmIntent?
    ensures PastBookkeeping(req, cal)
    ensures var last := LastReservation(IncomingSession(req)).value;
            var r := BookCarTurn(req, cal).value;
            last.Some? && last.value.HotelReservation?
            && IsAscii(last.value.location) && IsAscii(last.value.checkInDate)
            && AddDays(cal, last.value.checkInDate, last.value.nights).Success?
            && r.slots == SuggestedSlots(last.value, AddDays(cal, last.value.checkInDate, last.value.nights).value)
            && r.sessionAttributes == SessionAfterBookkeeping(req, cal)[ConfirmationContextKey := Text(AutoPopulate)]
  {
    TurnAfterBookkeeping(req, cal);
  }

  /** The proposed rental ends on the check-out day: as many days after check-in as the stay has nights. */
  lemma SuggestedRentalSpansTheStay(cal: Calendar, hotel: Reservation)
    requires hotel.HotelReservation? && hotel.nights >= 0 && cal.parse(hotel.checkInDate).Some?
    requires FormatParsesBack(cal, cal.parse(hotel.checkInDate).value + hotel.nights)
    ensures var returnDate := AddDays(cal, hotel.checkInDate, hotel.nights);
            returnDate.Success?
            && cal.parse(returnDate.value) == Some(cal.parse(hotel.checkInDate).value + hotel.nights)
            && GetDayDifference(cal, SuggestedSlots(hotel, returnDate.value)[ReturnDateSlot].value,
                                     SuggestedSlots(hotel, returnDate.value)[PickUpDateSlot].value)
               == Success(hotel.nights)
  {
    AddDaysThenDifference(cal, hotel.checkInDate, hotel.nights);
  }

  /**
   * Two turns: a rental proposed for a hotel stay and then denied starts the booking over, asking for
   * the pick-up city with every slot cleared.
   */
  lemma SuggestionThenDenialRestarts(first: IntentRequest, second: IntentRequest, cal: Calendar)
    requires BookCarTurn(first, cal).Success? && BookCarTurn(first, cal).value.ConfirmIntent?
    requires second.slots == BookCarTurn(first, cal).value.slots
    requires second.sessionAttributes == Some(BookCarTurn(first, cal).value.sessionAttributes)
    requires second.invocationSource == DialogCodeHook && second.confirmationStatus == Some(Denied)
    requires Validate(second.slots, cal) == Success(Valid)
    ensures var r := BookCarTurn(second, cal);
            r.Success? && r.value.ElicitSlot? && r.value.slotToElicit == PickUpCitySlot
            && r.value.slots == ClearedSlots && ConfirmationContextKey !in r.value.sessionAttributes
  {
    SuggestionIsFollowedUp(first, second, cal);
    DeniedSuggestionRestarts(second, cal);
  }

  /**
   * Two turns: a rental proposed for a hotel stay and then accepted goes on to ask for the driver's
   * age, which the proposal left empty.
   */
  lemma SuggestionThenConfirmationAsksDriverAge(first: IntentRequest, second: IntentRequest, cal: Calendar)
    requires BookCarTurn(first, cal).Success? && BookCarTurn(first, cal).value.ConfirmIntent?
    requires second.slots == BookCarTurn(first, cal).value.slots
    requires second.sessionAttributes == Some(BookCarTurn(first, cal).value.sessionAttributes)
    requires second.invocationSource == DialogCodeHook && second.confirmationStatus == Some(Confirmed)
    requires Validate(second.slots, cal) == Success(Valid)
    ensures var r := BookCarTurn(second, cal);
            r.Success? && r.value.ElicitSlot? && r.value.slotToElicit == DriverAgeSlot
            && r.value.message == DriverAgeQuestion && ConfirmationContextKey !in r.value.sessionAttributes
  {
    SuggestionIsFollowedUp(first, second, cal);
    ConfirmedSuggestionContinues(second, cal);
  }

  /** The turn after a proposal gets past its bookkeeping with the auto-populate flag set. */
  lemma SuggestionIsFollowedUp(first: IntentRequest, second: IntentRequest, cal: Calendar)
    requires BookCarTurn(first, cal).Success? && BookCarTurn(first, cal).value.ConfirmIntent?
    requires second.slots == BookCarTurn(first, cal).value.slots
    requires second.sessionAttributes == Some(BookCarTurn(first, cal).value.sessionAttributes)
    ensures PastBookkeeping(second, cal) && IsAutoPopulate(IncomingSession(second))
    ensures !Truthy(TryGet(second.slots, DriverAgeSlot)) && !Truthy(TryGet(second.slots, CarTypeSlot))
  {
    ConfirmIntentOnlyForHotelStay(first, cal);
    var incoming := IncomingSession(first);
    var hotel := LastReservation(incoming).value.value;
    assert second.slots[DriverAgeSlot] == None;
    assert !AllSlotsFilled(second.slots);
    var tracked := SessionAfterBookkeeping(first, cal);
    assert tracked[LastConfirmedReservationKey] == Stored(hotel);
    var session := BookCarTurn(first, cal).value.sessionAttributes;
    assert LastReservation(session) == Success(Some(hotel));
  }

  /**
   * The stored price treats every driver as 25 or older: the handler passes the driver age on as
   * text, and Python 2 orders text after every number, so the under-25 surcharge never applies.
   */
  lemma StoredPriceIgnoresDriverAge(slots: Slots, cal: Calendar)
    requires AllBookingSlotsTruthy(slots) && TrackedPrice(slots, cal).Success?
    ensures var days := GetDayDifference(cal, slots[PickUpDateSlot].value, slots[ReturnDateSlot].value).value;
            TrackedPrice(slots, cal).value
              == CarPrice(slots[PickUpCitySlot].value, days, AgeYears(25), slots[CarTypeSlot].value)
  {
    TextAgeRatedAsAdult(slots[PickUpCitySlot].value, slots[DriverAgeSlot].value, slots[CarTypeSlot].value);
  }
}
