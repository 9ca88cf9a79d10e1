/**
 * The data the webhook exchanges with the dialog platform: the intent request of one turn, the
 * session attributes carried between turns, and the four dialog-action responses.
 */
module Dialog {
  import opened Wrappers
  import opened Strings

  /** Slot name to slot value; a slot that is present but `null` maps to `None`. */
  type Slots = map<string, Option<string>>

  /**
   * A reservation as it is stored, serialised, in the session. The car reservation is the one the
   * webhook writes (it has no driver age); the hotel reservation is one an earlier conversation may
   * have left behind as the last confirmed reservation.
   */
  datatype Reservation =
    | CarReservation(pickUpCity: Option<string>, pickUpDate: Option<string>,
                     returnDate: Option<string>, carType: Option<string>)
    | HotelReservation(location: string, checkInDate: string, nights: int)

  /**
   * A session attribute value: plain text (such as the confirmation context), a number (the price)
   * or a serialised reservation.
   */
  datatype Attr = Text(text: string) | Amount(value: real) | Stored(reservation: Reservation)

  type Session = map<string, Attr>

  datatype Message = PlainText(content: string)

  datatype FulfillmentState = Fulfilled | Failed

  /** The platform's confirmation status; `Unconfirmed` is the status the platform spells "None". */
  datatype ConfirmationStatus = Unconfirmed | Denied | Confirmed

  datatype InvocationSource = DialogCodeHook | FulfillmentCodeHook

  /**
   * One turn's input. `confirmationStatus` is `None` when the request has no such field, and
   * `sessionAttributes` is `None` when the platform sends `null`.
   */
  datatype IntentRequest = IntentRequest(
    intentName: string,
    slots: Slots,
    confirmationStatus: Option<ConfirmationStatus>,
    invocationSource: InvocationSource,
    sessionAttributes: Option<Session>)

  /**
   * The four responses (`elicit_slot`, `confirm_intent`, `close`, `delegate`). Each carries the
   * session attributes exactly as its caller passed them.
   */
  datatype Response =
    | ElicitSlot(sessionAttributes: Session, intentName: string, slots: Slots,
                 slotToElicit: string, message: Message)
    | ConfirmIntent(sessionAttributes: Session, intentName: string, slots: Slots, message: Message)
    | Close(sessionAttributes: Session, fulfillmentState: FulfillmentState, message: Message)
    | Delegate(sessionAttributes: Session, slots: Slots)

  const PickUpCitySlot := "PickUpCity"
  const PickUpDateSlot := "PickUpDate"
  const ReturnDateSlot := "ReturnDate"
  const DriverAgeSlot := "DriverAge"
  const CarTypeSlot := "CarType"

  const CurrentReservationKey := "currentReservation"
  const CurrentReservationPriceKey := "currentReservationPrice"
  const ConfirmationContextKey := "confirmationContext"
  const LastConfirmedReservationKey := "lastConfirmedReservation"
  const AutoPopulate := "AutoPopulate"

  /** `try_ex(lambda: slots[key])`: a missing key and a `null` value both read as `None`. */
  function TryGet(slots: Slots, key: string): (v: Option<string>)
    ensures v.Some? <==> key in slots && slots[key].Some?
    ensures v.Some? ==> v == slots[key]
  {
    if key in slots then slots[key] else None
  }

  /** `try_ex(lambda: session_attributes[key])`. */
  function TryGetAttr(session: Session, key: string): (v: Option<Attr>)
    ensures v.Some? <==> key in session
    ensures v.Some? ==> v.value == session[key]
  {
    if key in session then Some(session[key]) else None
  }

  /** Python truthiness of an optional string: present and not empty. */
  predicate Truthy(v: Option<string>) {
    v.Some? && v.value != ""
  }

  /**
   * `safe_int(n)`: `None` stays `None`, anything else goes through `int`, which raises on a
   * string that is not a decimal number (the empty string included): `UnicodeEncodeError` for a
   * character its decimal encoder refuses, `ValueError` otherwise.
   */
  function SafeInt(v: Option<string>): (r: Result<Option<int>, PyError>)
    ensures v.None? ==> r == Success(None)
    ensures v.Some? ==> (r.Success? <==> ParseInt(v.value).Success?)
    ensures v.Some? && r.Success? ==> r.value == Some(ParseInt(v.value).value)
  {
    match v
    case None => Success(None)
    case Some(s) =>
      match ParseInt(s)
      case Success(n) => Success(Some(n))
      case Failure(e) => Failure(e)
  }

  /** A slot written by `str(n)` reads back as `n`, and an absent one as `None`. */
  lemma SafeIntOfShownInt(n: int)
    ensures SafeInt(Some(ShowInt(n))) == Success(Some(n))
    ensures SafeInt(None) == Success(None)
  {
    ParseShowInt(n);
  }

  /** The empty string is not a number: `safe_int('')` raises. */
  lemma SafeIntOfEmptyRaises()
    ensures SafeInt(Some("")) == Failure(ValueError)
  {
  }
}
