/**
 * `dispatch`: routes a request to its intent's handler. The career intent, and any intent the bot
 * does not know, go to the booking handler; the help and greeting intents close the conversation
 * with a fixed message and an empty session.
 */
module Dispatch {
  import opened Wrappers
  import opened Strings
  import opened Dialog
  import opened Dates
  import opened Booking

  const CareerIntent := "CareerIntent"
  const HelpIntent := "Help_intent"
  const GreetIntent := "GreetIntent"

  const HelpMessage := PlainText(
    "I can help you navigate your thoughts and choose a career suitable for you. As mentioned, I am "
    + "currently restricted towards careers in Computer Science. You may answer a couple of quick "
    + "questions, and I will try to suggest you a good path.")
  const GreetMessage := PlainText(
    "Hi. I am a bot and I can help you choose a path in Computer Science based on your profile. We will "
    + "go over a set of questions to understand your interests. Shall we start? Type ok to start.")

  /**
   * `dispatch(intent_request)`. The debug line it logs first fills the intent name into a byte-string
   * template, which raises for a name that is not ASCII.
   */
  method Dispatch(req: IntentRequest, cal: Calendar) returns (r: Result<Response, PyError>)
    ensures !IsAscii(req.intentName) ==> r == Failure(UnicodeEncodeError)
    ensures req.intentName == HelpIntent ==> r == Success(Close(map[], Fulfilled, HelpMessage))
    ensures req.intentName == GreetIntent ==> r == Success(Close(map[], Fulfilled, GreetMessage))
    ensures IsAscii(req.intentName) && req.intentName != HelpIntent && req.intentName != GreetIntent ==>
              r == BookCarTurn(req, cal)
  {
    var intentName := req.intentName;
    if !IsAscii(intentName) {
      return Failure(UnicodeEncodeError);
    }
    if intentName == CareerIntent {
      r := BookCar(req, cal);
    } else if intentName == HelpIntent {
      r := Success(Close(map[], Fulfilled, HelpMessage));
    } else if intentName == GreetIntent {
      r := Success(Close(map[], Fulfilled, GreetMessage));
    } else {
      r := BookCar(req, cal);
    }
  }
}
