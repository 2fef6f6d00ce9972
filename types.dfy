/** The application's value types: the wedding events, the attire pair a
    dress code names, and a colour suggestion as the text model returns it. */
module Types {

  /** A value that may be absent (TypeScript's `T | null`). */
  datatype Option<+T> = None | Some(value: T)

  /** The three ceremonies the app knows. */
  datatype EventType = Nikkah | Baraat | Valima

  /** The string value of each enum member: what the event selector shows
      and posts back, and what the prompts interpolate. */
  function EventName(e: EventType): (name: string)
    ensures name != ""
  {
    match e
    case Nikkah => "Nikkah"
    case Baraat => "Baraat"
    case Valima => "Valima"
  }

  /** The enum member whose string value is `name`, if there is one. The
      page itself reads the selector's posted value with an unchecked cast;
      this is the checked reading that shows the cast is sound for the values
      the selector can post: a name is read as the member it names, and
      nothing else is read as a member. */
  function ParseEventName(name: string): (e: Option<EventType>)
    ensures e.Some? ==> EventName(e.value) == name
    ensures e.None? ==> forall ev: EventType :: EventName(ev) != name
  {
    if name == EventName(Nikkah) then Some(Nikkah)
    else if name == EventName(Baraat) then Some(Baraat)
    else if name == EventName(Valima) then Some(Valima)
    else None
  }

  /** The traditional garment for each role at one event. */
  datatype DressCombination = DressCombination(bride: string, groom: string)

  /** A suggested colour: a display name and a hex code, both as returned. */
  datatype ColorSuggestion = ColorSuggestion(name: string, hex: string)

  /** Only an enum member's own string value is read back as that member,
      so the posted value and the event determine each other. */
  lemma ParseEventNameExact(name: string, e: EventType)
    ensures ParseEventName(name) == Some(e) <==> name == EventName(e)
  {
  }
}
