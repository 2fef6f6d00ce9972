# Pakistani Wedding Color Stylist — controller model

This Dafny project models the application controller of a browser styling
assistant for Pakistani weddings. The user picks a ceremony (Nikkah, Baraat
or Valima), types the colour one of the couple will wear, and asks a
generative-AI service for complementary colours for the other side. The user
then picks one suggestion and asks the service for a preview image of the
couple in those colours, wearing the ceremony's traditional attire.

Modules:

- `Types` holds the value types: the event enum and its string values, the
  dress-code pair, and a colour suggestion. `Option` stands for `T | null`.
- `Constants` holds the event menu (`WeddingEvents`) and the dress-code
  table (`DressCode`, a total `match` over the enum).
- `Text` holds `String.prototype.trim` and "entered", meaning non-blank after
  trimming, over ECMAScript's white-space and line-terminator code points.
- `Gateway` holds what the controller sends the AI service (two request
  records) and what it gets back (`Reply`: text, or a rejected call).
- `Controller` holds the class `App`, whose nine fields are the page's nine
  React state hooks, with one method per handler.
  - Each awaiting handler is split at its `await` into `Begin*` (the guard
    and resets; returns the request made, or `None`) and `Complete*` (the
    success or `catch` branch, then `finally`).
  - `Generate*` is the whole handler as one atomic step, with the reply as
    an input.
  - `SuggestionRequestFor` and `ImageRequestFor` state which request each
    handler makes.
  - `Valid()` is the invariant every reachable state keeps: at most one
    colour is entered, and a selected suggestion is in the current list.
    Every method except `CompleteCombinations` promises
    `old(Valid()) ==> Valid()`. `CompleteCombinations` keeps the invariant
    when nothing is selected, which `BeginCombinations` always ensures
    beforehand. No method requires more than the page itself guarantees.
- `Walkthrough` holds client runs of the class: the Baraat walkthrough, and
  a repeated suggestion round.

Inputs of the model in place of I/O:

- The reply of each gateway call is a `Reply` argument.
- The `JSON.parse` of the suggestion reply is a `Decoder` argument: a total
  function from text to a suggestion list, or `None`.
- Typing into a field, picking an event and clicking a swatch are method
  calls.

Points where the code behaves otherwise than one might expect, which the
model follows:

- When an image request fails, the previously generated image is still
  shown. The handler never clears it (App.tsx:55-70).
- A refused request (guard failure) leaves `isLoading` and `loadingMessage`
  as they were. `loadingMessage` is never reset after a request.
- The text fields are not mutually exclusive as such. A field is disabled
  while the other holds a non-blank colour, so whitespace typed in one field
  still leaves the other enabled. The invariant is "at most one entered",
  not "at most one non-empty".

## Model

| member | source | states |
|---|---|---|
| `Types.EventName` | types.ts:2-6 | each event's string value is non-empty |
| `Types.ParseEventName` | App.tsx:93-101 | a checked reading of the selector's posted value, which the page itself does not perform (it casts with `as EventType`): an event is returned only for that event's own string value, and `None` only for a string that is no event's value |
| `Types.ParseEventNameExact` | App.tsx:93-101 | a value posted by the event selector reads as event `e` exactly when it is `e`'s own string value |
| `Constants.WeddingEventsEnumerateAll` | constants.ts:4-8 | the menu has three entries, lists every `EventType`, and has no duplicates |
| `Constants.DressCode` | constants.ts:10-23 | the table is total over `EventType`, and each entry names a non-empty bride and groom garment |
| `Constants.DressCodeTable` | constants.ts:11-22 | Nikkah, Baraat and Valima map to exactly the three bride/groom garment pairs of the table |
| `Constants.DressCodesDistinct` | constants.ts:10-23 | distinct events have distinct dress codes |
| `Text.Trim` | App.tsx:21-22 | the result is the input with only white space cut from each end; it is empty iff the input is all white space, and otherwise starts and ends with a non-white-space character |
| `Text.TrimDetermined` | App.tsx:21-22 | any cut of the input that removes only white space from its ends and leaves nothing or a string with visible ends is exactly `Trim`'s result |
| `Text.IsEntered` | App.tsx:21-22 | a colour counts as entered iff it holds at least one non-white-space character |
| `Text.TrimIdempotent` | App.tsx:21-22 | trimming twice gives the same as trimming once |
| `Text.TrimKeepsTrimmed` | App.tsx:21-22 | a string with no white space at either end is unchanged by trimming |
| `Gateway.RoleName` | App.tsx:38 | the role literal passed is "bride" or "groom", and it is "bride" iff the bride's colour was used |
| `Controller.SuggestionRequestFor` | App.tsx:25-39 | a request is made iff some colour is entered; it carries an entered colour, untrimmed, from the bride's side when hers is entered and from the groom's otherwise, with its role and the event |
| `Controller.ImageRequestFor` | App.tsx:51-63 | a request is made iff a suggestion is selected; each side gets its typed colour when entered and the suggestion's name otherwise; the attire is the event's table entry |
| `Controller.WorkflowFillsOtherSide` | App.tsx:37-63 | with one side entered, the image request keeps the colour the suggestions were asked for on its own side and gives the other side the chosen suggestion |
| `Controller.App.constructor` | App.tsx:11-19 | initial state: Baraat, both colours "", no suggestions, no selection, no image, not loading, empty loading message, no error; the invariant holds |
| `Controller.App.BrideFieldDisabled` | App.tsx:112 | the bride's field is disabled iff the groom's colour holds a non-white-space character |
| `Controller.App.GroomFieldDisabled` | App.tsx:114 | the groom's field is disabled iff the bride's colour holds a non-white-space character |
| `Controller.App.GenerateButtonDisabled` | App.tsx:121 | the generate button is disabled iff the suggestion handler's guard would refuse the request |
| `Controller.App.ImageButtonShown` | App.tsx:146-156 | the image button is rendered iff the image handler's guard would let a request through |
| `Controller.App.DisplayedDressCode` | App.tsx:73-105 | the attire shown names a non-empty bride and groom garment and is the table entry of the selected event and of no other |
| `Controller.App.SelectEvent` | App.tsx:93-104 | the event becomes the chosen one, the displayed dress code is its table entry, and nothing else changes |
| `Controller.App.EditBrideColor` | App.tsx:112 | a change event sets the bride's colour unless the field is disabled; the groom's field is then disabled iff the new colour is entered; nothing else changes; the invariant is kept |
| `Controller.App.EditGroomColor` | App.tsx:114 | the mirror image of `EditBrideColor` for the groom's field |
| `Controller.SuggestionsFrom` | App.tsx:39-44 | a rejected call yields no list; a reply's list is exactly what decoding its text gives, `None` when decoding fails |
| `Controller.App.BeginCombinations` | App.tsx:24-39 | with no colour entered: only the error changes, to the fixed message, and no request is made. Otherwise: error cleared, loading on with its message, list, selection and image cleared, and the `SuggestionRequestFor` request made; the invariant is kept |
| `Controller.App.CompleteCombinations` | App.tsx:39-47 | a decoded list replaces the list wholesale; a failed call or decode sets the fixed error; loading ends; nothing else changes; with nothing selected the invariant is kept |
| `Controller.App.GenerateCombinations` | App.tsx:24-48 | a refused request changes only the error. Otherwise loading has ended, nothing is selected, no image is shown, and the list is exactly the decoded one with no error, or empty with the suggestion-failure error; the invariant is kept |
| `Controller.App.SelectSuggestion` | App.tsx:133-134 | the clicked entry of the list becomes the selection and nothing else changes; the invariant is kept |
| `Controller.App.BeginImage` | App.tsx:50-63 | with no selection: only the error changes, to the fixed message. Otherwise: error cleared, loading on with its message, the `ImageRequestFor` request made, and a previous image left in place; the invariant is kept |
| `Controller.App.CompleteImage` | App.tsx:63-70 | success shows the bytes as a `data:image/jpeg;base64,` URI; failure sets the fixed error and leaves any earlier image; loading ends; the invariant is kept |
| `Controller.App.GenerateImage` | App.tsx:50-71 | a refused request changes only the error. Otherwise loading has ended, and either the new image URI is shown with no error, or the earlier image stays with the image-failure error. List and selection are untouched; the invariant is kept |
| `Controller.FieldsNeverBothDisabled` | App.tsx:112-121 | in a valid state the two colour fields are never both disabled, and while the generate button is disabled both fields accept input |
| `Walkthrough.BaraatWalkthrough` | App.tsx:24-71 | Baraat with the bride in "Emerald Green": the request is ("Emerald Green", bride, Baraat); the single returned suggestion "Gold" is listed; the image request is ("Emerald Green", "Gold", Baraat, the Baraat dress code); the image URI is shown |
| `Walkthrough.RepeatedRound` | App.tsx:29-41 | a second suggestion round after a preview makes the same request, shows exactly the second list (no union), and clears the selection and the image |

## Left out

- services/geminiService.ts is not part of this model, apart from the
  argument lists of its two functions (lines 11-15 and 50-55), which
  `SuggestionRequest` and `ImageRequest` record.
  - The SDK calls, model names and generation options are foreign network
    calls.
  - The prompt templates are free text with nothing checkable.
  - The `API_KEY` startup check is environment I/O.
  - The `otherPerson` choice inside the prompt is template text.
  - The `generatedImages[0]` indexing happens outside the controller.
  - Each call is an input `Reply` to the handler instead.
- `JSON.parse`: JSON syntax is not modelled. Decoding is an input function
  that yields a suggestion list or fails. The source stores whatever the
  parse returns, without checking that it is an array of `{name, hex}`
  objects. A reply that parses to something else is outside the model.
- `Text.Trim`: works on Unicode scalar values, not UTF-16 code units; all
  the white-space code points lie in the Basic Multilingual Plane, so this
  does not change the result. The space-separator set is fixed to the
  current Unicode list; a different engine's Unicode version may differ.
- Race conditions: each handler is one atomic step. Overlapping requests
  are not modelled. Nothing in the source stops a second click while one
  call is pending, and a late reply then overwrites the state.
- `console.error` logging in both `catch` branches: diagnostic output only.
- The `e.target.value as EventType` cast accepts any string. The selector
  only posts its own option values, so `SelectEvent` takes an `EventType`.
  `ParseEventName` is the checked reading, and `ParseEventNameExact`
  shows every option value reads back as its own event, so the cast loses
  nothing for the values the selector can post.
- Presentation:
  - components/ColorInput.tsx's swatch preview relies on the browser's CSS
    colour parser; only its `disabled` attribute is modelled.
  - components/Loader.tsx and the icon component.
  - The highlight of the selected swatch and the swatch keys (App.tsx:133-141).
  - The error, loading-overlay and image-placeholder rendering (App.tsx:158-174).
