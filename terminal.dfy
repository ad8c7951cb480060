/** The terminal front end of `main.py`: the answers `collect_user_input`
    reads, the reconciliation of `main()` and its choice between the
    language model and the fallback. Reading the terminal and printing the
    result are left to the caller: the answers are parameters and the
    features and result are returned. */
module Terminal {
  import opened Wrappers
  import opened Text
  import opened Json
  import opened Normalizer
  import opened SoilPh
  import opened Climate
  import opened Scorer
  import opened Advice

  /** The seven lines typed at the prompts, as read. */
  datatype Answers = Answers(
    tree: string, soil: string, region: string, rainfall: string,
    temp: string, purpose: string, landSize: string)

  /** The dict `collect_user_input` returns. */
  datatype Collected = Collected(
    tree: string, soil: string, soilRaw: string, region: string,
    rainfallInput: string, rainfall: Option<real>, temp: real,
    purpose: string, landSize: Option<real>)

  /** Python `s or d` on a string. */
  function OrText(s: string, d: string): string {
    if s != "" then s else d
  }

  /** `collect_user_input` on the stripped answers. */
  function CollectUserInput(a: Answers): Collected {
    var soilRaw := OrText(Strip(a.soil), "loamy");
    var rainfallRaw := Strip(a.rainfall);
    var tempRaw := Strip(a.temp);
    var landRaw := Strip(a.landSize);
    Collected(
      OrText(Strip(a.tree), "Mango"),
      NormalizeSoil(soilRaw),
      soilRaw,
      Strip(a.region),
      rainfallRaw,
      if rainfallRaw != "" then ParseRainfall(rainfallRaw) else None,
      TemperatureOf(tempRaw),
      OrText(Strip(a.purpose), "Personal"),
      if landRaw != "" then ParseLandSize(landRaw) else None)
  }

  /** What the re-parse in `main()` relies on: the parsed rainfall is the
      parse of the rainfall answer when there is one. */
  predicate RainfallParsed(c: Collected) {
    c.rainfall == if c.rainfallInput != "" then ParseRainfall(c.rainfallInput) else None
  }

  lemma CollectedRainfallParsed(a: Answers)
    ensures RainfallParsed(CollectUserInput(a))
  {
  }

  /** The final features of `main()` from the collected answers: the
      region's pH or 6.5, the user's rainfall or the region's or 800, and the
      land size or 200. */
  function Reconciled(c: Collected, services: Services): FinalFeatures {
    var looked := RegionPhAndRainfall(c.region, services);
    FinalFeatures(c.tree, c.soil, c.soilRaw, c.region,
      looked.0.GetOr(DEFAULT_PH), FinalRainfall(c.rainfall, looked.1),
      c.temp, c.purpose, OrDefault(c.landSize, 200.0))
  }

  /** The final features of `main()` for the typed answers. */
  function TerminalFeatures(a: Answers, services: Services): FinalFeatures {
    Reconciled(CollectUserInput(a), services)
  }

  /** `main()` up to printing the result. */
  method RunTerminal(a: Answers, services: Services, m: LanguageModel, fmt: Formatter)
    returns (features: FinalFeatures, result: Dict)
    ensures features == TerminalFeatures(a, services)
    ensures result == ChosenResult(features, m, fmt)
  {
    var c := CollectUserInput(a);
    CollectedRainfallParsed(a);
    features := Reconcile(c, services);
    result := Recommend(features, m, fmt);
  }

  /** The reconciliation in `main()`: the region lookup, the precedence chain
      for rainfall, and the pH and land-size defaults. */
  method Reconcile(c: Collected, services: Services) returns (features: FinalFeatures)
    requires RainfallParsed(c)
    ensures features == Reconciled(c, services)
  {
    var phVal: Option<real> := None;
    var rainfallFromApi: Option<real> := None;
    if c.region != "" {
      var coords := GeocodeRegion(c.region, services);
      if coords.Some? {
        var looked := RegionPhAndRainfall(c.region, services);
        phVal, rainfallFromApi := looked.0, looked.1;
      } else {
        NoCoordsNothing(c.region, services);
      }
    } else {
      GeocodeBlank(c.region, services);
    }

    var rainfall := c.rainfall;
    if rainfall.None? {
      if rainfallFromApi.Some? {
        rainfall := rainfallFromApi;
      } else if c.rainfallInput != "" {
        rainfall := Some(OrDefault(ParseRainfall(c.rainfallInput), 800.0));
      } else {
        rainfall := Some(800.0);
      }
    }

    var ph := if phVal.Some? then phVal.value else 6.5;
    var landSize := OrDefault(c.landSize, 200.0);
    features := FinalFeatures(c.tree, c.soil, c.soilRaw, c.region, ph, rainfall.value, c.temp, c.purpose, landSize);
  }

  /** The language-model branch of `main()` and the fallback when it
      produced nothing. */
  method Recommend(features: FinalFeatures, m: LanguageModel, fmt: Formatter) returns (result: Dict)
    ensures result == ChosenResult(features, m, fmt)
  {
    var llmResult := TryModel(features, m);
    if llmResult.None? {
      var rb := RuleBasedClassify(ClassifierFeatures(features), fmt);
      result := FallbackResult(rb);
    } else {
      result := llmResult.value;
    }
  }

  /** The language-model attempt of `main()`, with its
      `setdefault(key, parsed.get(key, default))` fill; any exception leaves
      no result. */
  method TryModel(features: FinalFeatures, m: LanguageModel) returns (llmResult: Option<Dict>)
    ensures llmResult == LlmResult(m.apiKey, m.reply(features), m.loads)
  {
    llmResult := None;
    if KeyConfigured(m.apiKey) {
      var respText := m.reply(features);
      if respText.Some? {
        var first := FindChar(respText.value, '{');
        var jsonText;
        if first != -1 {
          jsonText := respText.value[first..];
        } else {
          jsonText := respText.value;
        }
        var parsed := m.loads(jsonText);
        if parsed.Some? && parsed.value.Obj? {
          var filled := FillDefaultsViaGet(parsed.value.fields);
          llmResult := Some(filled);
        }
      }
    }
  }

  /** Blank answers for the tree, the soil and the purpose take "Mango",
      "loamy" (which the table makes "loamy soil") and "Personal". */
  lemma BlankAnswersDefaults(a: Answers)
    requires Strip(a.tree) == "" && Strip(a.soil) == "" && Strip(a.purpose) == ""
    ensures var c := CollectUserInput(a);
      c.tree == "Mango" && c.soilRaw == "loamy" && c.soil == "loamy soil" && c.purpose == "Personal"
  {
    LoamyNormal();
  }

  lemma LoamyNormal()
    ensures NormalizeSoil("loamy") == "loamy soil"
  {
    assert Canon("loamy") == "loamy";
  }

  /** The user's parsed rainfall wins, zero included; without one the
      region's; without that 800, since re-parsing a failed answer fails
      again. */
  lemma TerminalRainfall(a: Answers, services: Services)
    ensures var c := CollectUserInput(a);
      var f := TerminalFeatures(a, services);
      (c.rainfall.Some? ==> f.rainfall == c.rainfall.value) &&
      (c.rainfall.None? ==> f.rainfall == RegionPhAndRainfall(c.region, services).1.GetOr(800.0))
  {
  }

  /** The pH is the region's when the lookup gives one, which lies in
      [0, 14], and 6.5 otherwise; a blank region is never looked up. */
  lemma TerminalPh(a: Answers, services: Services)
    ensures TerminalFeatures(a, services).ph == RegionPhAndRainfall(Strip(a.region), services).0.GetOr(6.5)
    ensures var f := TerminalFeatures(a, services);
      f.ph == 6.5 || 0.0 <= f.ph <= 14.0
    ensures Strip(a.region) == "" ==> TerminalFeatures(a, services).ph == 6.5
  {
    var c := CollectUserInput(a);
    RegionPhInRange(c.region, services);
    if Strip(a.region) == "" {
      StripOfStripped("");
      GeocodeBlank(c.region, services);
    }
  }

  /** The land size falls back to 200 both when it is missing and when it
      reads as zero. */
  lemma TerminalLandSize(a: Answers, services: Services)
    ensures var c := CollectUserInput(a);
      var f := TerminalFeatures(a, services);
      (c.landSize.None? || c.landSize == Some(0.0) ==> f.landSize == 200.0) &&
      (c.landSize.Some? && c.landSize.value != 0.0 ==> f.landSize == c.landSize.value)
  {
  }

  /** The temperature answer is read as a number, 25 when blank or unreadable. */
  lemma TerminalTemperature(a: Answers, services: Services)
    ensures var t := Strip(a.temp);
      TerminalFeatures(a, services).temp == if t != "" && ParseFloat(t).Some? then ParseFloat(t).value else 25.0
  {
  }
}
