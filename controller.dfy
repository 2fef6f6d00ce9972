/** The application controller: the page's state and the handlers of the
    two-stage workflow (suggest colours, pick one, render a preview).

    Each handler that awaits the gateway is split at its `await`: Begin*
    is the guard and the resets before the call, returning the request it
    makes (None when the guard stops it); Complete* is what runs when the
    call settles (the success or `catch` branch, then `finally`). The
    handler itself, Generate*, is one atomic step: Begin*, then Complete*
    whenever a request was made, with the gateway's reply as an input. */
module Controller {
  import opened Types
  import opened Constants
  import opened Text
  import opened Gateway

  const NoColorError := "Please enter a color for either the bride or the groom."
  const SuggestionsError := "Could not generate color suggestions. Please try again."
  const NoSelectionError := "Please select a suggested color first."
  const ImageError := "Could not generate the image. The model might be unavailable."
  const SuggestionsLoading := "Finding perfect color matches..."
  const ImageLoading := "Creating your wedding preview..."
  const ImageUriPrefix := "data:image/jpeg;base64,"

  /** Decoding of the suggestion reply's JSON text: the suggestion list, or
      None when the text does not decode to one. */
  type Decoder = string -> Option<seq<ColorSuggestion>>

  /** The suggestion list the reply yields, or None when the call failed or
      its text did not decode. */
  function SuggestionsFrom(reply: Reply, decode: Decoder): (list: Option<seq<ColorSuggestion>>)
    ensures reply.Failure? ==> list.None?
    ensures reply.Success? ==> list == decode(reply.payload)
  {
    match reply
    case Success(text) => decode(text)
    case Failure => None
  }

  /** The request the suggestion handler makes for the typed colours, or None
      when its guard stops it. It is made exactly when a colour is entered; it
      carries an entered colour, as typed (untrimmed), with the role of the
      side it was typed in, preferring the bride's side. */
  function SuggestionRequestFor(brideColor: string, groomColor: string, eventType: EventType): (r: Option<SuggestionRequest>)
    ensures r.None? <==> !IsEntered(brideColor) && !IsEntered(groomColor)
    ensures r.Some? ==> r.value.eventType == eventType && IsEntered(r.value.inputColor)
    ensures r.Some? ==> (r.value.personWearingColor == Bride <==> IsEntered(brideColor))
    ensures r.Some? ==> r.value.inputColor == if r.value.personWearingColor == Bride then brideColor else groomColor
  {
    if !IsEntered(brideColor) && !IsEntered(groomColor) then None
    else
      var inputColor := if IsEntered(brideColor) then brideColor else groomColor;
      var personWearingColor := if IsEntered(brideColor) then Bride else Groom;
      Some(SuggestionRequest(inputColor, personWearingColor, eventType))
  }

  /** The request the image handler makes, or None when no suggestion is
      selected. Each side wears its typed colour when one is entered there
      and the selected suggestion's name otherwise; the attire is the event's
      dress code. */
  function ImageRequestFor(brideColor: string, groomColor: string, eventType: EventType,
                           selected: Option<ColorSuggestion>): (r: Option<ImageRequest>)
    ensures r.None? <==> selected.None?
    ensures r.Some? ==> r.value.eventType == eventType && r.value.dressCode == DressCode(eventType)
    ensures r.Some? ==> r.value.brideColor == (if IsEntered(brideColor) then brideColor else selected.value.name)
    ensures r.Some? ==> r.value.groomColor == (if IsEntered(groomColor) then groomColor else selected.value.name)
  {
    match selected
    case None => None
    case Some(suggestion) =>
      var finalBrideColor := if IsEntered(brideColor) then brideColor else suggestion.name;
      var finalGroomColor := if IsEntered(groomColor) then groomColor else suggestion.name;
      Some(ImageRequest(finalBrideColor, finalGroomColor, eventType, DressCode(eventType)))
  }

  /** The two stages fit together: when only one side is entered, the image
      request keeps the colour the suggestions were asked for on its own
      side and dresses the other side in the chosen suggestion. */
  lemma WorkflowFillsOtherSide(brideColor: string, groomColor: string, eventType: EventType, choice: ColorSuggestion)
    requires !(IsEntered(brideColor) && IsEntered(groomColor))
    requires SuggestionRequestFor(brideColor, groomColor, eventType).Some?
    ensures var ask := SuggestionRequestFor(brideColor, groomColor, eventType).value;
            var image := ImageRequestFor(brideColor, groomColor, eventType, Some(choice)).value;
            image == if ask.personWearingColor == Bride
                     then ImageRequest(ask.inputColor, choice.name, eventType, DressCode(eventType))
                     else ImageRequest(choice.name, ask.inputColor, eventType, DressCode(eventType))
  {
  }

  /** The page's state, one field per React state hook. */
  class App {
    var eventType: EventType
    var brideColor: string
    var groomColor: string
    var colorSuggestions: seq<ColorSuggestion>
    var selectedSuggestion: Option<ColorSuggestion>
    var generatedImage: Option<string>
    var isLoading: bool
    var loadingMessage: string
    var error: Option<string>

    predicate BrideColorEntered() reads this { IsEntered(brideColor) }
    predicate GroomColorEntered() reads this { IsEntered(groomColor) }

    /** `disabled` of the bride's colour field: on exactly while the groom's
        field holds a non-white-space character. */
    function BrideFieldDisabled(): (disabled: bool)
      reads this
      ensures disabled <==> exists i :: 0 <= i < |groomColor| && !IsWhitespace(groomColor[i])
    {
      GroomColorEntered()
    }

    /** `disabled` of the groom's colour field: on exactly while the bride's
        field holds a non-white-space character. */
    function GroomFieldDisabled(): (disabled: bool)
      reads this
      ensures disabled <==> exists i :: 0 <= i < |brideColor| && !IsWhitespace(brideColor[i])
    {
      BrideColorEntered()
    }

    /** `disabled` of the "Generate Color Combinations" button: on exactly
        when the suggestion handler's guard would refuse to make a request. */
    function GenerateButtonDisabled(): (disabled: bool)
      reads this
      ensures disabled <==> SuggestionRequestFor(brideColor, groomColor, eventType).None?
    {
      !BrideColorEntered() && !GroomColorEntered()
    }

    /** The "Generate Image Preview" button is rendered exactly when the image
        handler's guard would let a request through. */
    function ImageButtonShown(): (shown: bool)
      reads this
      ensures shown <==> ImageRequestFor(brideColor, groomColor, eventType, selectedSuggestion).Some?
    {
      selectedSuggestion.Some?
    }

    /** The attire shown under the event selector: a non-empty garment for
        each role, and one that no other event's table entry shares, so it
        always belongs to the event selected. */
    function DisplayedDressCode(): (d: DressCombination)
      reads this
      ensures d.bride != "" && d.groom != ""
      ensures forall e: EventType :: DressCode(e) == d ==> e == eventType
    {
      DressCodesDistinct(eventType, Nikkah);
      DressCodesDistinct(eventType, Baraat);
      DressCodesDistinct(eventType, Valima);
      DressCode(eventType)
    }

    /** What every reachable state satisfies: at most one colour is entered
        (the other field is disabled meanwhile), and a selected suggestion is
        an entry of the current list. */
    ghost predicate Valid() reads this {
      && !(BrideColorEntered() && GroomColorEntered())
      && (selectedSuggestion.Some? ==> selectedSuggestion.value in colorSuggestions)
    }

    /** The initial state. */
    constructor ()
      ensures eventType == Baraat && brideColor == "" && groomColor == ""
      ensures colorSuggestions == [] && selectedSuggestion == None && generatedImage == None
      ensures !isLoading && loadingMessage == "" && error == None
      ensures Valid()
    {
      eventType := Baraat;
      brideColor, groomColor := "", "";
      colorSuggestions := [];
      selectedSuggestion := None;
      generatedImage := None;
      isLoading := false;
      loadingMessage := "";
      error := None;
    }

    /** Picking an event in the selector; the dress code shown follows it. */
    method SelectEvent(e: EventType)
      modifies this
      ensures eventType == e && DisplayedDressCode() == DressCode(e)
      ensures brideColor == old(brideColor) && groomColor == old(groomColor)
      ensures colorSuggestions == old(colorSuggestions) && selectedSuggestion == old(selectedSuggestion)
      ensures generatedImage == old(generatedImage) && error == old(error)
      ensures isLoading == old(isLoading) && loadingMessage == old(loadingMessage)
      ensures old(Valid()) ==> Valid()
    {
      eventType := e;
    }

    /** A change event of the bride's colour field. A disabled input fires
        none, so while the groom's colour is entered nothing changes. Once
        the field holds an entered colour, the groom's field is disabled. */
    method EditBrideColor(value: string)
      modifies this
      ensures brideColor == if old(BrideFieldDisabled()) then old(brideColor) else value
      ensures !old(BrideFieldDisabled()) ==> (GroomFieldDisabled() <==> IsEntered(value))
      ensures eventType == old(eventType) && groomColor == old(groomColor)
      ensures colorSuggestions == old(colorSuggestions) && selectedSuggestion == old(selectedSuggestion)
      ensures generatedImage == old(generatedImage) && error == old(error)
      ensures isLoading == old(isLoading) && loadingMessage == old(loadingMessage)
      ensures old(Valid()) ==> Valid()
    {
      if !BrideFieldDisabled() {
        brideColor := value;
      }
    }

    /** A change event of the groom's colour field; the mirror image of
        EditBrideColor. */
    method EditGroomColor(value: string)
      modifies this
      ensures groomColor == if old(GroomFieldDisabled()) then old(groomColor) else value
      ensures !old(GroomFieldDisabled()) ==> (BrideFieldDisabled() <==> IsEntered(value))
      ensures eventType == old(eventType) && brideColor == old(brideColor)
      ensures colorSuggestions == old(colorSuggestions) && selectedSuggestion == old(selectedSuggestion)
      ensures generatedImage == old(generatedImage) && error == old(error)
      ensures isLoading == old(isLoading) && loadingMessage == old(loadingMessage)
      ensures old(Valid()) ==> Valid()
    {
      if !GroomFieldDisabled() {
        groomColor := value;
      }
    }

    /** The suggestion handler up to its `await`. With no colour entered it
        only sets the error and makes no request; otherwise it clears the
        error, the list, the selection and the image, shows the loading
        message, and makes the request SuggestionRequestFor describes. The
        guard fails exactly when the button is disabled. */
    method BeginCombinations() returns (request: Option<SuggestionRequest>)
      modifies this
      ensures request == SuggestionRequestFor(old(brideColor), old(groomColor), old(eventType))
      ensures request.None? <==> old(GenerateButtonDisabled())
      ensures request.None? ==>
        && error == Some(NoColorError)
        && colorSuggestions == old(colorSuggestions) && selectedSuggestion == old(selectedSuggestion)
        && generatedImage == old(generatedImage)
        && isLoading == old(isLoading) && loadingMessage == old(loadingMessage)
      ensures request.Some? ==>
        && error == None
        && colorSuggestions == [] && selectedSuggestion == None && generatedImage == None
        && isLoading && loadingMessage == SuggestionsLoading
      ensures eventType == old(eventType) && brideColor == old(brideColor) && groomColor == old(groomColor)
      ensures old(Valid()) ==> Valid()
    {
      var isBrideColorEntered, isGroomColorEntered := BrideColorEntered(), GroomColorEntered();
      if !isBrideColorEntered && !isGroomColorEntered {
        error := Some(NoColorError);
        return None;
      }
      error := None;
      isLoading := true;
      loadingMessage := SuggestionsLoading;
      colorSuggestions := [];
      selectedSuggestion := None;
      generatedImage := None;
      var inputColor := if isBrideColorEntered then brideColor else groomColor;
      var personWearingColor := if isBrideColorEntered then Bride else Groom;
      request := Some(SuggestionRequest(inputColor, personWearingColor, eventType));
    }

    /** The suggestion handler after its `await`: a decoded list replaces the
        current one wholesale; a failed call or decode sets the error and
        leaves the list alone; either way loading ends. */
    method CompleteCombinations(reply: Reply, decode: Decoder)
      modifies this
      ensures colorSuggestions == match SuggestionsFrom(reply, decode)
                                  case Some(list) => list
                                  case None => old(colorSuggestions)
      ensures error == if SuggestionsFrom(reply, decode).Some? then old(error) else Some(SuggestionsError)
      ensures !isLoading
      ensures eventType == old(eventType) && brideColor == old(brideColor) && groomColor == old(groomColor)
      ensures selectedSuggestion == old(selectedSuggestion) && generatedImage == old(generatedImage)
      ensures loadingMessage == old(loadingMessage)
      ensures old(Valid()) && old(selectedSuggestion).None? ==> Valid()
    {
      match SuggestionsFrom(reply, decode) {
        case Some(list) => colorSuggestions := list;
        case None => error := Some(SuggestionsError);
      }
      isLoading := false;
    }

    /** The whole suggestion handler. A blocked request changes only the
        error; otherwise the list is exactly the decoded one (or empty, with
        the failure message), nothing stays selected, no image is shown and
        loading has ended. */
    method GenerateCombinations(reply: Reply, decode: Decoder) returns (request: Option<SuggestionRequest>)
      modifies this
      ensures request == SuggestionRequestFor(old(brideColor), old(groomColor), old(eventType))
      ensures request.None? <==> old(GenerateButtonDisabled())
      ensures request.None? ==>
        && error == Some(NoColorError)
        && colorSuggestions == old(colorSuggestions) && selectedSuggestion == old(selectedSuggestion)
        && generatedImage == old(generatedImage)
        && isLoading == old(isLoading) && loadingMessage == old(loadingMessage)
      ensures request.Some? ==>
        && selectedSuggestion == None && generatedImage == None
        && !isLoading && loadingMessage == SuggestionsLoading
        && match SuggestionsFrom(reply, decode)
           case Some(list) => colorSuggestions == list && error == None
           case None => colorSuggestions == [] && error == Some(SuggestionsError)
      ensures eventType == old(eventType) && brideColor == old(brideColor) && groomColor == old(groomColor)
      ensures old(Valid()) ==> Valid()
    {
      request := BeginCombinations();
      if request.Some? {
        CompleteCombinations(reply, decode);
      }
    }

    /** A click on entry `i` of the rendered suggestion grid selects it. */
    method SelectSuggestion(i: nat)
      requires i < |colorSuggestions|
      modifies this
      ensures selectedSuggestion == Some(old(colorSuggestions[i])) && ImageButtonShown()
      ensures eventType == old(eventType) && brideColor == old(brideColor) && groomColor == old(groomColor)
      ensures colorSuggestions == old(colorSuggestions) && generatedImage == old(generatedImage)
      ensures error == old(error) && isLoading == old(isLoading) && loadingMessage == old(loadingMessage)
      ensures old(Valid()) ==> Valid()
    {
      selectedSuggestion := Some(colorSuggestions[i]);
    }

    /** The image handler up to its `await`. With nothing selected it only
        sets the error and makes no request; otherwise it clears the error,
        shows the loading message and makes the request ImageRequestFor
        describes. It does not clear an image shown before. */
    method BeginImage() returns (request: Option<ImageRequest>)
      modifies this
      ensures request == ImageRequestFor(old(brideColor), old(groomColor), old(eventType), old(selectedSuggestion))
      ensures request.None? <==> !old(ImageButtonShown())
      ensures request.None? ==>
        error == Some(NoSelectionError) && isLoading == old(isLoading) && loadingMessage == old(loadingMessage)
      ensures request.Some? ==> error == None && isLoading && loadingMessage == ImageLoading
      ensures eventType == old(eventType) && brideColor == old(brideColor) && groomColor == old(groomColor)
      ensures colorSuggestions == old(colorSuggestions) && selectedSuggestion == old(selectedSuggestion)
      ensures generatedImage == old(generatedImage)
      ensures old(Valid()) ==> Valid()
    {
      var isBrideColorEntered, isGroomColorEntered := BrideColorEntered(), GroomColorEntered();
      if selectedSuggestion.None? {
        error := Some(NoSelectionError);
        return None;
      }
      error := None;
      isLoading := true;
      loadingMessage := ImageLoading;
      var finalBrideColor := if isBrideColorEntered then brideColor else selectedSuggestion.value.name;
      var finalGroomColor := if isGroomColorEntered then groomColor else selectedSuggestion.value.name;
      var dressCode := DressCode(eventType);
      request := Some(ImageRequest(finalBrideColor, finalGroomColor, eventType, dressCode));
    }

    /** The image handler after its `await`: the returned bytes are shown as
        a JPEG data URI; on failure the error is set and the image shown
        before, if any, stays; either way loading ends. */
    method CompleteImage(reply: Reply)
      modifies this
      ensures generatedImage == match reply
                                case Success(bytes) => Some(ImageUriPrefix + bytes)
                                case Failure => old(generatedImage)
      ensures error == if reply.Success? then old(error) else Some(ImageError)
      ensures !isLoading
      ensures eventType == old(eventType) && brideColor == old(brideColor) && groomColor == old(groomColor)
      ensures colorSuggestions == old(colorSuggestions) && selectedSuggestion == old(selectedSuggestion)
      ensures loadingMessage == old(loadingMessage)
      ensures old(Valid()) ==> Valid()
    {
      match reply {
        case Success(bytes) => generatedImage := Some(ImageUriPrefix + bytes);
        case Failure => error := Some(ImageError);
      }
      isLoading := false;
    }

    /** The whole image handler. A blocked request changes only the error;
        otherwise loading has ended and either the new image is shown with
        no error, or the failure message is set and the earlier image (if
        any) is still shown. The list and the selection are never touched. */
    method GenerateImage(reply: Reply) returns (request: Option<ImageRequest>)
      modifies this
      ensures request == ImageRequestFor(old(brideColor), old(groomColor), old(eventType), old(selectedSuggestion))
      ensures request.None? <==> !old(ImageButtonShown())
      ensures request.None? ==>
        && error == Some(NoSelectionError) && generatedImage == old(generatedImage)
        && isLoading == old(isLoading) && loadingMessage == old(loadingMessage)
      ensures request.Some? ==>
        && !isLoading && loadingMessage == ImageLoading
        && match reply
           case Success(bytes) => generatedImage == Some(ImageUriPrefix + bytes) && error == None
           case Failure => generatedImage == old(generatedImage) && error == Some(ImageError)
      ensures eventType == old(eventType) && brideColor == old(brideColor) && groomColor == old(groomColor)
      ensures colorSuggestions == old(colorSuggestions) && selectedSuggestion == old(selectedSuggestion)
      ensures old(Valid()) ==> Valid()
    {
      request := BeginImage();
      if request.Some? {
        CompleteImage(reply);
      }
    }
  }

  /** In every valid state at most one colour field is disabled, and while
      the generate button is disabled both fields accept input. */
  lemma FieldsNeverBothDisabled(app: App)
    requires app.Valid()
    ensures !(app.BrideFieldDisabled() && app.GroomFieldDisabled())
    ensures app.GenerateButtonDisabled() ==> !app.BrideFieldDisabled() && !app.GroomFieldDisabled()
  {
  }
}
