/** Client runs of the controller: the Baraat walkthrough and a repeated
    suggestion round, stated over the requests made and the state shown. */
module Walkthrough {
  import opened Types
  import opened Text
  import opened Gateway
  import opened Controller

  const Gold := ColorSuggestion("Gold", "#FFD700")

  /** Baraat, bride in "Emerald Green", groom left blank: the suggestions are
      asked for the bride's colour, the one returned suggestion is listed,
      and choosing it dresses the groom in it under the Baraat dress code. */
  method BaraatWalkthrough() returns (ask: Option<SuggestionRequest>, shown: seq<ColorSuggestion>,
                                      render: Option<ImageRequest>, image: Option<string>)
    ensures ask == Some(SuggestionRequest("Emerald Green", Bride, Baraat))
    ensures shown == [Gold]
    ensures render == Some(ImageRequest("Emerald Green", "Gold", Baraat,
                                        DressCombination("Lehenga, Gharara or Sharara", "Sherwani with Turban")))
    ensures image == Some(ImageUriPrefix + "/9j/4AAQ")
  {
    var app := new App();
    assert !IsWhitespace("Emerald Green"[0]);
    assert IsEntered("Emerald Green") && !IsEntered("");
    app.EditBrideColor("Emerald Green");
    ask := app.GenerateCombinations(Success("[{\"name\":\"Gold\",\"hex\":\"#FFD700\"}]"), _ => Some([Gold]));
    shown := app.colorSuggestions;
    app.SelectSuggestion(0);
    assert app.selectedSuggestion == Some(Gold);
    render := app.GenerateImage(Success("/9j/4AAQ"));
    image := app.generatedImage;
  }

  /** Asking again after a preview was made: the second list replaces the
      first (no union), the selection and the preview are gone, and the
      same request is made both times. */
  method RepeatedRound(first: seq<ColorSuggestion>, second: seq<ColorSuggestion>)
    returns (ask1: Option<SuggestionRequest>, ask2: Option<SuggestionRequest>,
             shown: seq<ColorSuggestion>, selected: Option<ColorSuggestion>, image: Option<string>)
    requires |first| > 0
    ensures ask1 == ask2 == Some(SuggestionRequest("#FFC0CB", Groom, Baraat))
    ensures shown == second && selected == None && image == None
  {
    var app := new App();
    assert !IsWhitespace("#FFC0CB"[0]);
    app.EditGroomColor("#FFC0CB");
    ask1 := app.GenerateCombinations(Success("first"), _ => Some(first));
    app.SelectSuggestion(0);
    var _ := app.GenerateImage(Success("AAAA"));
    ask2 := app.GenerateCombinations(Success("second"), _ => Some(second));
    shown, selected, image := app.colorSuggestions, app.selectedSuggestion, app.generatedImage;
  }
}
