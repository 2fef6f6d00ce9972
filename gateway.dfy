/** The boundary with the generative-AI service. The two calls are not
    modelled; what is modelled is the request the controller makes (its
    arguments) and the reply it gets back (text, or an exception). */
module Gateway {
  import opened Types

  /** Which of the couple wore the colour the user typed. */
  datatype Role = Bride | Groom

  /** The literal the controller passes as `personWearingColor`. */
  function RoleName(role: Role): (name: string)
    ensures name == "bride" || name == "groom"
    ensures (name == "bride") <==> role == Bride
  {
    match role
    case Bride => "bride"
    case Groom => "groom"
  }

  /** The arguments of one colour-suggestion request. */
  datatype SuggestionRequest = SuggestionRequest(inputColor: string, personWearingColor: Role, eventType: EventType)

  /** The arguments of one image request. */
  datatype ImageRequest = ImageRequest(brideColor: string, groomColor: string, eventType: EventType, dressCode: DressCombination)

  /** What an awaited call yields: its text (JSON text, or base64 image
      bytes), or a rejected promise. */
  datatype Reply = Success(payload: string) | Failure
}
