/** `run_tree_advisor`, the entry point of the web front end: the form's
    seven fields in, the display string out. The web services and the
    language model are parameters. */
module WebAdvisor {
  import opened Wrappers
  import opened Text
  import opened Json
  import opened Normalizer
  import opened Climate
  import opened Scorer
  import opened Advice
  import Terminal

  /** The seven form fields, as submitted. */
  datatype WebInputs = WebInputs(
    tree: string, soilRaw: string, rainRaw: string, region: string,
    landRaw: string, temperature: string, purpose: string)

  /** The exception `run_tree_advisor` lets escape: `float(None)` on a land
      size that did not parse. */
  datatype WebError = UnreadableLandSize

  /** `parse_land_size(land_raw) if land_raw else 200.0`. */
  function LandSizeOf(landRaw: string): Option<real> {
    if landRaw != "" then ParseLandSize(landRaw) else Some(200.0)
  }

  /** The rainfall the user gave, if any. */
  function UserRainfall(rainRaw: string): Option<real> {
    if rainRaw != "" then ParseRainfall(rainRaw) else None
  }

  /** The final features of `run_tree_advisor`, or its exception. */
  function WebFeatures(w: WebInputs, services: Services): Result<FinalFeatures, WebError> {
    var looked := RegionPhAndRainfall(w.region, services);
    match LandSizeOf(w.landRaw)
    case None => Failure(UnreadableLandSize)
    case Some(land) =>
      Success(FinalFeatures(w.tree, NormalizeSoil(w.soilRaw), w.soilRaw, w.region,
        looked.0.GetOr(DEFAULT_PH), FinalRainfall(UserRainfall(w.rainRaw), looked.1),
        TemperatureOf(w.temperature), w.purpose, land))
  }

  /** What `run_tree_advisor` returns, or the exception it raises. */
  function WebOutput(w: WebInputs, services: Services, m: LanguageModel, fmt: Formatter): Result<string, WebError> {
    match WebFeatures(w, services)
    case Failure(e) => Failure(e)
    case Success(f) => Success(OutputText(ChosenResult(f, m, fmt), fmt))
  }

  /** `run_tree_advisor`. */
  method RunTreeAdvisor(w: WebInputs, services: Services, m: LanguageModel, fmt: Formatter)
    returns (r: Result<string, WebError>)
    ensures r == WebOutput(w, services, m, fmt)
  {
    var features := Reconcile(w, services);
    if features.Failure? {
      return Failure(features.error);
    }
    var result := Recommend(features.value, m, fmt);
    r := Success(OutputText(result, fmt));
  }

  /** The reconciliation of `run_tree_advisor`: each field parsed, the region
      looked up when given, then the precedence chain for rainfall. */
  method Reconcile(w: WebInputs, services: Services) returns (features: Result<FinalFeatures, WebError>)
    ensures features == WebFeatures(w, services)
  {
    var soil := NormalizeSoil(w.soilRaw);
    var rainfallVal := if w.rainRaw != "" then ParseRainfall(w.rainRaw) else None;
    var temp := TemperatureOf(w.temperature);
    var landSizeVal := if w.landRaw != "" then ParseLandSize(w.landRaw) else Some(200.0);

    var phVal: Option<real> := None;
    var rainfallFromApi: Option<real> := None;
    if w.region != "" {
      var looked := RegionPhAndRainfall(w.region, services);
      phVal, rainfallFromApi := looked.0, looked.1;
    } else {
      GeocodeBlank(w.region, services);
    }

    var ph := if phVal.Some? then phVal.value else 6.5;

    if rainfallVal.None? {
      if rainfallFromApi.Some? {
        rainfallVal := rainfallFromApi;
      } else if w.rainRaw != "" {
        rainfallVal := Some(OrDefault(ParseRainfall(w.rainRaw), 800.0));
      } else {
        rainfallVal := Some(800.0);
      }
    }

    if landSizeVal.None? {
      return Failure(UnreadableLandSize);
    }
    features := Success(FinalFeatures(w.tree, soil, w.soilRaw, w.region, ph, rainfallVal.value, temp, w.purpose, landSizeVal.value));
  }

  /** The language-model branch of `run_tree_advisor` and the fallback when
      it produced nothing. */
  method Recommend(features: FinalFeatures, m: LanguageModel, fmt: Formatter) returns (result: Dict)
    ensures result == ChosenResult(features, m, fmt)
  {
    var llmResult := TryModel(features, m);
    if llmResult.None? {
      var rb := RuleBasedClassify(ClassifierFeatures(features), fmt);
      result := FallbackResult(rb);
    } else {
      result := llmResult.value;
    }
  }

  /** The language-model attempt of `run_tree_advisor`, with its
      `setdefault(key, default)` fill; any exception leaves no result. */
  method TryModel(features: FinalFeatures, m: LanguageModel) returns (llmResult: Option<Dict>)
    ensures llmResult == LlmResult(m.apiKey, m.reply(features), m.loads)
  {
    llmResult := None;
    if KeyConfigured(m.apiKey) {
      var respText := m.reply(features);
      if respText.Some? {
        var first := FindChar(respText.value, '{');
        var jsonText := if first != -1 then respText.value[first..] else respText.value;
        var parsed := m.loads(jsonText);
        if parsed.Some? && parsed.value.Obj? {
          var filled := FillDefaults(parsed.value.fields);
          llmResult := Some(filled);
        }
      }
    }
  }

  /** The advisor fails exactly when a land size is given and does not
      parse. */
  lemma WebFailsIff(w: WebInputs, services: Services, m: LanguageModel, fmt: Formatter)
    ensures WebOutput(w, services, m, fmt).Failure? <==> w.landRaw != "" && ParseLandSize(w.landRaw).None?
  {
  }

  /** A missing land size is 200 square metres; a given one is kept as
      parsed, zero included. */
  lemma WebLandSize(w: WebInputs, services: Services)
    ensures w.landRaw == "" ==> WebFeatures(w, services).Success? && WebFeatures(w, services).value.landSize == 200.0
    ensures w.landRaw != "" && ParseLandSize(w.landRaw).Some? ==>
      WebFeatures(w, services).Success? && WebFeatures(w, services).value.landSize == ParseLandSize(w.landRaw).value
  {
  }

  /** The temperature text is read as a number, 25 when empty or
      unreadable; it is not stripped first, but `float()` skips the padding. */
  lemma WebTemperature(w: WebInputs, services: Services)
    ensures WebFeatures(w, services).Success? ==>
      var t := w.temperature;
      WebFeatures(w, services).value.temp == if t != "" && ParseFloat(t).Some? then ParseFloat(t).value else 25.0
  {
  }

  /** The user's parsed rainfall wins, zero included; without one the
      region's; without that 800. */
  lemma WebRainfall(w: WebInputs, services: Services)
    requires WebFeatures(w, services).Success?
    ensures var f := WebFeatures(w, services).value;
      var user := UserRainfall(w.rainRaw);
      (user.Some? ==> f.rainfall == user.value) &&
      (user.None? ==> f.rainfall == RegionPhAndRainfall(w.region, services).1.GetOr(800.0))
  {
  }

  /** Without a region the pH is 6.5; with one it is the region's when the
      lookup gives one, which lies in [0, 14], and 6.5 otherwise. */
  lemma WebPh(w: WebInputs, services: Services)
    requires WebFeatures(w, services).Success?
    ensures WebFeatures(w, services).value.ph == RegionPhAndRainfall(w.region, services).0.GetOr(6.5)
    ensures var f := WebFeatures(w, services).value;
      (w.region == "" ==> f.ph == 6.5) && (f.ph == 6.5 || 0.0 <= f.ph <= 14.0)
  {
    RegionPhInRange(w.region, services);
    if w.region == "" {
      GeocodeBlank(w.region, services);
    }
  }

  /** Without a key, the tree, the purpose and the land size do not change
      the answer, as long as the land size reads. */
  lemma FallbackOutputIgnores(w: WebInputs, v: WebInputs, services: Services, m: LanguageModel, fmt: Formatter)
    requires !KeyConfigured(m.apiKey)
    requires w.soilRaw == v.soilRaw && w.rainRaw == v.rainRaw && w.region == v.region && w.temperature == v.temperature
    requires LandSizeOf(w.landRaw).Some? && LandSizeOf(v.landRaw).Some?
    ensures WebOutput(w, services, m, fmt) == WebOutput(v, services, m, fmt)
  {
    var f := WebFeatures(w, services).value;
    var g := WebFeatures(v, services).value;
    NoKeyFallback(f, m, fmt);
    NoKeyFallback(g, m, fmt);
  }

  /** Every answer starts with its "Priority:" section. */
  lemma WebOutputStartsWithPriority(w: WebInputs, services: Services, m: LanguageModel, fmt: Formatter)
    requires WebOutput(w, services, m, fmt).Success?
    ensures StartsWith(WebOutput(w, services, m, fmt).value, "Priority:")
  {
    var f := WebFeatures(w, services).value;
    OutputStartsWithPriority(ChosenResult(f, m, fmt), fmt);
  }

  /** The two front ends part ways on a land size that reads as zero: the
      terminal's `or 200.0` replaces it, the web form keeps it. */
  lemma ZeroLandSizeDiffers(a: Terminal.Answers, w: WebInputs, services: Services)
    requires a.landSize == w.landRaw && w.landRaw != "" && ParseLandSize(w.landRaw) == Some(0.0)
    ensures Terminal.TerminalFeatures(a, services).landSize == 200.0
    ensures WebFeatures(w, services).Success? && WebFeatures(w, services).value.landSize == 0.0
  {
    StripIsStripped(w.landRaw);
    StripOfStripped(Strip(w.landRaw));
    assert Canon(Strip(w.landRaw)) == Canon(w.landRaw);
    assert Strip(w.landRaw) != "";
  }
}
