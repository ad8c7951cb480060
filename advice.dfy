/** The result dict both front ends show: the language model's reply with
    its missing keys filled in, or the rule-based fallback with the fixed text
    of its tier; and the display string of `run_tree_advisor`. */
module Advice {
  import opened Wrappers
  import opened Text
  import opened Json
  import opened Scorer

  /** The recommendation text of each tier of the fallback. */
  function RecommendationText(t: Tier): string {
    match t
    case High => "• Prepare land (clear weeds, loosen soil)\n• Plant during rainy season\n• Use mulch and monitor irrigation for 6 months"
    case Medium => "• Add compost and organic matter\n• Consider partial shade or agroforestry mix"
    case Low => "• Consider more drought-tolerant species or soil improvement before planting."
  }

  /** The commercial advice of each tier of the fallback. */
  function CommercialText(t: Tier): string {
    match t
    case High => "For commercial use, plan irrigation, adopt spacing for high yield, and research markets."
    case Medium => "Medium-scale possible with amendments and good management."
    case Low => "Low commercial viability; consider alternative crops or irrigation."
  }

  function Suitability(t: Tier): string {
    if t != Low then "Yes" else "No"
  }

  /** A result dict with its five keys in the order both front ends write
      them. */
  function ResultDict(priority: Json, suitability: Json, reason: Json, recommendation: Json, commercial: Json): Dict {
    [("priority", priority), ("suitability", suitability), ("reason", reason),
     ("recommendation", recommendation), ("commercial_advice", commercial)]
  }

  /** The fallback result dict, built from the classifier's result. */
  function FallbackResult(rb: Classification): Dict {
    ResultDict(Str(TierName(rb.priority)), Str(Suitability(rb.priority)), Str(rb.reason),
      Str(RecommendationText(rb.priority)), Str(CommercialText(rb.priority)))
  }

  /** The five keys of a result and the value each gets when the model's
      reply lacks it. */
  const RESULT_DEFAULTS: seq<(string, Json)> := [
    ("priority", Str("Medium")),
    ("suitability", Str("Yes")),
    ("reason", Str("No reason provided.")),
    ("recommendation", Str("")),
    ("commercial_advice", Str(""))
  ]

  /** Python `d.setdefault(key, default)`: a missing key is appended with the
      default, a present one is left alone. */
  function SetDefault(d: Dict, key: string, default: Json): Dict {
    if key in Keys(d) then d else d + [(key, default)]
  }

  /** The reply with every default applied in order. */
  function WithDefaults(d: Dict, defaults: seq<(string, Json)>): Dict
    decreases |defaults|
  {
    if defaults == [] then d
    else WithDefaults(SetDefault(d, defaults[0].0, defaults[0].1), defaults[1..])
  }

  /** The five `parsed.setdefault(key, default)` statements of
      `run_tree_advisor`. */
  method FillDefaults(parsed: Dict) returns (filled: Dict)
    ensures filled == WithDefaults(parsed, RESULT_DEFAULTS)
  {
    filled := parsed;
    filled := SetDefault(filled, "priority", Str("Medium"));
    filled := SetDefault(filled, "suitability", Str("Yes"));
    filled := SetDefault(filled, "reason", Str("No reason provided."));
    filled := SetDefault(filled, "recommendation", Str(""));
    filled := SetDefault(filled, "commercial_advice", Str(""));
    UnfoldDefaults(parsed);
  }

  /** The five `parsed.setdefault(key, parsed.get(key, default))` statements
      of `main()`: the same result, since the value passed only matters when
      the key is missing. */
  method FillDefaultsViaGet(parsed: Dict) returns (filled: Dict)
    ensures filled == WithDefaults(parsed, RESULT_DEFAULTS)
  {
    filled := parsed;
    filled := SetDefault(filled, "priority", Get(filled, "priority", Str("Medium")));
    filled := SetDefault(filled, "suitability", Get(filled, "suitability", Str("Yes")));
    filled := SetDefault(filled, "reason", Get(filled, "reason", Str("No reason provided.")));
    filled := SetDefault(filled, "recommendation", Get(filled, "recommendation", Str("")));
    filled := SetDefault(filled, "commercial_advice", Get(filled, "commercial_advice", Str("")));
    SetDefaultViaGet(parsed, "priority", Str("Medium"));
    var d1 := SetDefault(parsed, "priority", Str("Medium"));
    SetDefaultViaGet(d1, "suitability", Str("Yes"));
    var d2 := SetDefault(d1, "suitability", Str("Yes"));
    SetDefaultViaGet(d2, "reason", Str("No reason provided."));
    var d3 := SetDefault(d2, "reason", Str("No reason provided."));
    SetDefaultViaGet(d3, "recommendation", Str(""));
    var d4 := SetDefault(d3, "recommendation", Str(""));
    SetDefaultViaGet(d4, "commercial_advice", Str(""));
    UnfoldDefaults(parsed);
  }

  lemma UnfoldDefaults(d: Dict)
    ensures WithDefaults(d, RESULT_DEFAULTS) ==
      SetDefault(SetDefault(SetDefault(SetDefault(SetDefault(d,
        "priority", Str("Medium")), "suitability", Str("Yes")), "reason", Str("No reason provided.")),
        "recommendation", Str("")), "commercial_advice", Str(""))
  {
    var ds := RESULT_DEFAULTS;
    assert ds[1..][1..][1..][1..][1..] == [];
  }

  /** `setdefault(k, d.get(k, v))` does what `setdefault(k, v)` does. */
  lemma SetDefaultViaGet(d: Dict, key: string, default: Json)
    ensures SetDefault(d, key, Get(d, key, default)) == SetDefault(d, key, default)
  {
    LookupSpec(d, key);
  }

  /** `setdefault` keeps every entry, in place, and adds at most one. */
  lemma SetDefaultExtends(d: Dict, key: string, default: Json)
    ensures var e := SetDefault(d, key, default);
      |d| <= |e| <= |d| + 1 && e[..|d|] == d
  {
  }

  /** Keys of a dict with one more entry. */
  lemma KeysAppend(d: Dict, key: string, v: Json)
    ensures Keys(d + [(key, v)]) == Keys(d) + [key]
  {
    var e := d + [(key, v)];
    assert forall i :: 0 <= i < |d| ==> e[i] == d[i];
  }

  /** Looking up in a longer dict finds what the shorter one held. */
  lemma {:induction false} LookupPrefix(d: Dict, extra: Dict, key: string)
    requires key in Keys(d)
    ensures Lookup(d + extra, key) == Lookup(d, key)
  {
    assert d != [];
    assert (d + extra)[0] == d[0] && (d + extra)[1..] == d[1..] + extra;
    if d[0].0 != key {
      assert Keys(d) == [d[0].0] + Keys(d[1..]);
      LookupPrefix(d[1..], extra, key);
    }
  }

  /** A key missing from a dict is found at the entry appended for it. */
  lemma LookupAppended(d: Dict, key: string, v: Json)
    requires key !in Keys(d)
    ensures Lookup(d + [(key, v)], key) == Some(v)
  {
    KeysAppend(d, key, v);
    LookupAppendedFrom(d, key, v);
  }

  lemma {:induction false} LookupAppendedFrom(d: Dict, key: string, v: Json)
    requires key !in Keys(d)
    ensures Lookup(d + [(key, v)], key) == Some(v)
  {
    if d == [] {
      assert d + [(key, v)] == [(key, v)];
    } else {
      assert (d + [(key, v)])[0] == d[0] && (d + [(key, v)])[1..] == d[1..] + [(key, v)];
      assert Keys(d) == [d[0].0] + Keys(d[1..]);
      LookupAppendedFrom(d[1..], key, v);
    }
  }

  /** Filling defaults keeps the reply as a prefix: nothing is overwritten,
      removed or reordered. */
  lemma {:induction false} DefaultsKeepReply(d: Dict, defaults: seq<(string, Json)>)
    ensures |d| <= |WithDefaults(d, defaults)| && WithDefaults(d, defaults)[..|d|] == d
    decreases |defaults|
  {
    if defaults != [] {
      var e := SetDefault(d, defaults[0].0, defaults[0].1);
      SetDefaultExtends(d, defaults[0].0, defaults[0].1);
      DefaultsKeepReply(e, defaults[1..]);
      assert WithDefaults(d, defaults)[..|d|] == WithDefaults(e, defaults[1..])[..|e|][..|d|];
    }
  }

  /** A key the reply holds keeps the reply's value, whatever it is: present
      values are neither overwritten nor checked. */
  lemma PresentKeyKept(d: Dict, key: string)
    requires key in Keys(d)
    ensures Lookup(WithDefaults(d, RESULT_DEFAULTS), key) == Lookup(d, key)
  {
    var w := WithDefaults(d, RESULT_DEFAULTS);
    DefaultsKeepReply(d, RESULT_DEFAULTS);
    assert w == d + w[|d|..];
    LookupPrefix(d, w[|d|..], key);
  }

  /** Applying defaults makes every one of their keys present. */
  lemma {:induction false} DefaultsCoverKeys(d: Dict, defaults: seq<(string, Json)>)
    ensures forall i :: 0 <= i < |defaults| ==> defaults[i].0 in Keys(WithDefaults(d, defaults))
    ensures forall k :: k in Keys(d) ==> k in Keys(WithDefaults(d, defaults))
    decreases |defaults|
  {
    if defaults != [] {
      var (k, v) := defaults[0];
      var e := SetDefault(d, k, v);
      if k !in Keys(d) {
        KeysAppend(d, k, v);
      }
      assert k in Keys(e);
      DefaultsCoverKeys(e, defaults[1..]);
      forall i | 0 <= i < |defaults|
        ensures defaults[i].0 in Keys(WithDefaults(d, defaults))
      {
        if i > 0 {
          assert defaults[i] == defaults[1..][i - 1];
        }
      }
    }
  }

  /** After the fill every result key is present. */
  lemma AllResultKeysPresent(d: Dict)
    ensures Complete(WithDefaults(d, RESULT_DEFAULTS))
  {
    DefaultsCoverKeys(d, RESULT_DEFAULTS);
  }

  /** A result key the reply lacks gets its default. */
  lemma MissingKeyDefaulted(d: Dict, i: nat)
    requires i < |RESULT_DEFAULTS| && RESULT_DEFAULTS[i].0 !in Keys(d)
    ensures Lookup(WithDefaults(d, RESULT_DEFAULTS), RESULT_DEFAULTS[i].0) == Some(RESULT_DEFAULTS[i].1)
  {
    var ks := RESULT_DEFAULTS;
    assert ks[0].0 == "priority" && ks[1].0 == "suitability" && ks[2].0 == "reason";
    assert ks[3].0 == "recommendation" && ks[4].0 == "commercial_advice";
    MissingKeyDefaultedFrom(d, ks, i);
  }

  /** The general form: with distinct default keys, a key missing from the
      reply gets the value its own default entry names. */
  lemma {:induction false} MissingKeyDefaultedFrom(d: Dict, defaults: seq<(string, Json)>, i: nat)
    requires i < |defaults| && defaults[i].0 !in Keys(d)
    requires forall a, b :: 0 <= a < b < |defaults| ==> defaults[a].0 != defaults[b].0
    ensures Lookup(WithDefaults(d, defaults), defaults[i].0) == Some(defaults[i].1)
    decreases |defaults|
  {
    var (k, v) := defaults[0];
    var e := SetDefault(d, k, v);
    if i == 0 {
      LookupAppended(d, k, v);
      KeysAppend(d, k, v);
      var w := WithDefaults(e, defaults[1..]);
      DefaultsKeepReply(e, defaults[1..]);
      assert w == e + w[|e|..];
      LookupPrefix(e, w[|e|..], k);
    } else {
      var key := defaults[i].0;
      assert defaults[1..][i - 1] == defaults[i];
      if k !in Keys(d) {
        KeysAppend(d, k, v);
        assert key != k;
      }
      assert key !in Keys(e);
      forall a, b | 0 <= a < b < |defaults[1..]|
        ensures defaults[1..][a].0 != defaults[1..][b].0
      {
        assert defaults[1..][a] == defaults[a + 1] && defaults[1..][b] == defaults[b + 1];
      }
      MissingKeyDefaultedFrom(e, defaults[1..], i - 1);
    }
  }

  /** Filling twice is filling once. */
  lemma {:induction false} DefaultsIdempotent(d: Dict, defaults: seq<(string, Json)>)
    ensures WithDefaults(WithDefaults(d, defaults), defaults) == WithDefaults(d, defaults)
  {
    DefaultsCoverKeys(d, defaults);
    DefaultsNoOp(WithDefaults(d, defaults), defaults);
  }

  /** Defaults whose keys are all present change nothing. */
  lemma {:induction false} DefaultsNoOp(d: Dict, defaults: seq<(string, Json)>)
    requires forall i :: 0 <= i < |defaults| ==> defaults[i].0 in Keys(d)
    ensures WithDefaults(d, defaults) == d
    decreases |defaults|
  {
    if defaults != [] {
      forall i | 0 <= i < |defaults[1..]|
        ensures defaults[1..][i].0 in Keys(d)
      {
        assert defaults[1..][i] == defaults[i + 1];
      }
      DefaultsNoOp(d, defaults[1..]);
    }
  }

  /** Each key of a result dict finds the value it was built with. */
  lemma ResultDictFields(priority: Json, suitability: Json, reason: Json, recommendation: Json, commercial: Json)
    ensures var d := ResultDict(priority, suitability, reason, recommendation, commercial);
      Lookup(d, "priority") == Some(priority) && Lookup(d, "suitability") == Some(suitability) &&
      Lookup(d, "reason") == Some(reason) && Lookup(d, "recommendation") == Some(recommendation) &&
      Lookup(d, "commercial_advice") == Some(commercial)
  {
    var d := ResultDict(priority, suitability, reason, recommendation, commercial);
    assert Lookup(d, "priority") == Some(priority) by {
      LookupAt(d, 0, "priority");
    }
    assert Lookup(d, "suitability") == Some(suitability) by {
      LookupAt(d, 1, "suitability");
    }
    assert Lookup(d, "reason") == Some(reason) by {
      LookupAt(d, 2, "reason");
    }
    assert Lookup(d, "recommendation") == Some(recommendation) by {
      LookupAt(d, 3, "recommendation");
    }
    assert Lookup(d, "commercial_advice") == Some(commercial) by {
      LookupAt(d, 4, "commercial_advice");
    }
  }

  /** The fallback carries the classifier's priority and reason, says "No"
      exactly for the Low tier, and holds the fixed texts of its tier. */
  lemma FallbackSpec(rb: Classification)
    ensures var d := FallbackResult(rb);
      Lookup(d, "priority") == Some(Str(TierName(rb.priority))) &&
      Lookup(d, "suitability") == Some(Str(if rb.priority == Low then "No" else "Yes")) &&
      Lookup(d, "reason") == Some(Str(rb.reason)) &&
      Lookup(d, "recommendation") == Some(Str(RecommendationText(rb.priority))) &&
      Lookup(d, "commercial_advice") == Some(Str(CommercialText(rb.priority)))
  {
    ResultDictFields(Str(TierName(rb.priority)), Str(Suitability(rb.priority)), Str(rb.reason),
      Str(RecommendationText(rb.priority)), Str(CommercialText(rb.priority)));
  }

  /** The text from the reply's first "{" on, or the whole reply. */
  function JsonText(resp: string): (r: string) {
    var first := FindChar(resp, '{');
    if first != -1 then resp[first..] else resp
  }

  /** The JSON text is a suffix of the reply that starts at its first "{",
      or the whole reply when there is none. */
  lemma JsonTextSpec(resp: string)
    ensures '{' in resp ==> (exists i :: 0 <= i < |resp| && JsonText(resp) == resp[i..] && '{' !in resp[..i]) &&
                            JsonText(resp) != [] && JsonText(resp)[0] == '{'
    ensures '{' !in resp ==> JsonText(resp) == resp
  {
    FindCharSpec(resp, '{');
    var first := FindChar(resp, '{');
    if first != -1 {
      assert JsonText(resp) == resp[first..];
    }
  }

  /** Python truthiness of the configured key. */
  predicate KeyConfigured(apiKey: Option<string>) {
    apiKey.Some? && apiKey.value != ""
  }

  /** The language-model path: only with a key, a reply, and a reply whose
      JSON text parses as a dict; `setdefault` on any other value raises. */
  function LlmResult(apiKey: Option<string>, response: Option<string>, loads: string -> Option<Json>): Option<Dict> {
    if !KeyConfigured(apiKey) || response.None? then None
    else
      match loads(JsonText(response.value))
      case Some(Obj(fields)) => Some(WithDefaults(fields, RESULT_DEFAULTS))
      case _ => None
  }

  /** The model's result is used exactly when the key is set, the call
      answered and its JSON text parses as a dict. */
  lemma LlmResultSpec(apiKey: Option<string>, response: Option<string>, loads: string -> Option<Json>)
    ensures LlmResult(apiKey, response, loads).Some? <==>
      KeyConfigured(apiKey) && response.Some? &&
      loads(JsonText(response.value)).Some? && loads(JsonText(response.value)).value.Obj?
  {
  }

  /** How a result value reads in the display string; every value of a
      displayed result is present. */
  function Field(d: Dict, key: string, fmt: Formatter): string {
    Display(Lookup(d, key).GetOr(Null), fmt)
  }

  /** The five sections of the display string, from the texts of the five
      fields, before it is stripped. */
  function Layout(priority: string, suitability: string, reason: string, recommendation: string, commercial: string): string {
    "Priority: " + priority + "\n" +
    "Suitability: " + suitability + "\n" +
    "Reason: " + reason + "\n\n" +
    "Recommendations:\n" + recommendation + "\n\n" +
    "Commercial advice:\n" + commercial
  }

  /** The display string of `run_tree_advisor`. */
  function OutputText(result: Dict, fmt: Formatter): string {
    Strip(Layout(Field(result, "priority", fmt), Field(result, "suitability", fmt), Field(result, "reason", fmt),
      Field(result, "recommendation", fmt), Field(result, "commercial_advice", fmt)))
  }

  /** Stripping never touches the leading "Priority:" header. */
  lemma OutputStartsWithPriority(result: Dict, fmt: Formatter)
    ensures StartsWith(OutputText(result, fmt), "Priority:")
  {
    LayoutStartsWithPriority(Field(result, "priority", fmt), Field(result, "suitability", fmt), Field(result, "reason", fmt),
      Field(result, "recommendation", fmt), Field(result, "commercial_advice", fmt));
  }

  lemma LayoutStartsWithPriority(priority: string, suitability: string, reason: string, recommendation: string, commercial: string)
    ensures StartsWith(Strip(Layout(priority, suitability, reason, recommendation, commercial)), "Priority:")
  {
    var s := Layout(priority, suitability, reason, recommendation, commercial);
    assert s[..9] == "Priority:";
    assert s == "Priority:" + s[9..];
    StripKeepsHead("Priority:", s[9..]);
  }

  /** When the commercial advice ends in visible text, the display string
      ends with the "Commercial advice:" section holding it. */
  lemma OutputEndsWithAdvice(result: Dict, fmt: Formatter)
    requires var c := Field(result, "commercial_advice", fmt); c != [] && !IsSpace(c[|c| - 1])
    ensures EndsWith(OutputText(result, fmt), "Commercial advice:\n" + Field(result, "commercial_advice", fmt))
  {
    LayoutEndsWithAdvice(Field(result, "priority", fmt), Field(result, "suitability", fmt), Field(result, "reason", fmt),
      Field(result, "recommendation", fmt), Field(result, "commercial_advice", fmt));
  }

  lemma LayoutEndsWithAdvice(priority: string, suitability: string, reason: string, recommendation: string, commercial: string)
    requires commercial != [] && !IsSpace(commercial[|commercial| - 1])
    ensures EndsWith(Strip(Layout(priority, suitability, reason, recommendation, commercial)), "Commercial advice:\n" + commercial)
  {
    var s := Layout(priority, suitability, reason, recommendation, commercial);
    var h := "Commercial advice:\n" + commercial;
    assert h[0] == 'C';
    assert s == s[..|s| - |h|] + h;
    StripKeepsTail(s[..|s| - |h|], h);
  }

  /** With empty commercial advice the display string ends with the bare
      "Commercial advice:" header: the newline after it is stripped. */
  lemma OutputEmptyAdvice(result: Dict, fmt: Formatter)
    requires Field(result, "commercial_advice", fmt) == ""
    ensures EndsWith(OutputText(result, fmt), "Commercial advice:")
  {
    LayoutEmptyAdvice(Field(result, "priority", fmt), Field(result, "suitability", fmt), Field(result, "reason", fmt),
      Field(result, "recommendation", fmt));
  }

  lemma LayoutEmptyAdvice(priority: string, suitability: string, reason: string, recommendation: string)
    ensures EndsWith(Strip(Layout(priority, suitability, reason, recommendation, "")), "Commercial advice:")
  {
    var s := Layout(priority, suitability, reason, recommendation, "");
    var h := "Commercial advice:";
    var u := s[..|s| - 1];
    assert s == u + ['\n'];
    assert u == u[..|u| - |h|] + h;
    TrimEndSpace(u, '\n');
    assert s[0] == 'P' && u[0] == 'P';
    TrimStartOfStripped(s);
    TrimStartOfStripped(u);
    StripKeepsTail(u[..|u| - |h|], h);
  }


  /** The `final_features` dict both front ends build. */
  datatype FinalFeatures = FinalFeatures(
    tree: string, soil: string, soilRaw: string, region: string,
    ph: real, rainfall: real, temp: real, purpose: string, landSize: real)

  /** What `rule_based_classify` reads of the final features; each is present. */
  function ClassifierFeatures(f: FinalFeatures): Features {
    Features(Some(f.soil), Some(f.ph), Some(f.rainfall), Some(f.temp))
  }

  /** The language model: the configured key, the reply to the prompt built
      from the final features (None when the call raises), and `json.loads`
      (None when it raises). */
  datatype LanguageModel = LanguageModel(
    apiKey: Option<string>,
    reply: FinalFeatures -> Option<string>,
    loads: string -> Option<Json>)

  /** The dict `rule_based_classify` returns for some features. */
  function Classified(f: Features, fmt: Formatter): Classification {
    Classification(TierOf(Score(f)), ReasonText(f, fmt), "", "")
  }

  /** The result either front end settles on: the model's, else the
      fallback for the classifier's tier. */
  function ChosenResult(f: FinalFeatures, m: LanguageModel, fmt: Formatter): Dict {
    match LlmResult(m.apiKey, m.reply(f), m.loads)
    case Some(d) => d
    case None => FallbackResult(Classified(ClassifierFeatures(f), fmt))
  }

  /** Python `x or d` on an optional number: None and zero both give `d`. */
  function OrDefault(x: Option<real>, d: real): real {
    if x.Some? && x.value != 0.0 then x.value else d
  }

  /** `float(t) if t else 25.0`, with a failing `float` also giving 25.0. */
  function TemperatureOf(raw: string): real {
    if raw == "" then DEFAULT_TEMP else ParseFloat(raw).GetOr(DEFAULT_TEMP)
  }

  /** The rainfall precedence: the user's value, else the looked-up one,
      else 800. */
  function FinalRainfall(user: Option<real>, looked: Option<real>): real {
    user.GetOr(looked.GetOr(DEFAULT_RAINFALL))
  }

  /** Without a key the fallback always decides. */
  lemma NoKeyFallback(f: FinalFeatures, m: LanguageModel, fmt: Formatter)
    requires !KeyConfigured(m.apiKey)
    ensures ChosenResult(f, m, fmt) == FallbackResult(Classified(ClassifierFeatures(f), fmt))
  {
  }

  /** A result that holds all five keys. */
  predicate Complete(d: Dict) {
    forall i :: 0 <= i < |RESULT_DEFAULTS| ==> RESULT_DEFAULTS[i].0 in Keys(d)
  }

  /** Whichever path decides, the result holds all five keys. */
  lemma ChosenResultComplete(f: FinalFeatures, m: LanguageModel, fmt: Formatter)
    ensures Complete(ChosenResult(f, m, fmt))
  {
    match LlmResult(m.apiKey, m.reply(f), m.loads)
    case Some(d) =>
      AllResultKeysPresent(m.loads(JsonText(m.reply(f).value)).value.fields);
    case None =>
      FallbackComplete(Classified(ClassifierFeatures(f), fmt));
  }

  lemma FallbackComplete(rb: Classification)
    ensures Complete(FallbackResult(rb))
  {
    ResultDictKeys(Str(TierName(rb.priority)), Str(Suitability(rb.priority)), Str(rb.reason),
      Str(RecommendationText(rb.priority)), Str(CommercialText(rb.priority)));
  }

  /** A result dict holds all five keys. */
  lemma ResultDictKeys(priority: Json, suitability: Json, reason: Json, recommendation: Json, commercial: Json)
    ensures Complete(ResultDict(priority, suitability, reason, recommendation, commercial))
  {
    var d := ResultDict(priority, suitability, reason, recommendation, commercial);
    forall i | 0 <= i < |RESULT_DEFAULTS|
      ensures RESULT_DEFAULTS[i].0 in Keys(d)
    {
      assert Keys(d)[i] == RESULT_DEFAULTS[i].0;
    }
  }

  /** The fallback depends on soil, pH, rainfall and temperature only: the
      tree, the purpose and the land size never change it. */
  lemma FallbackIgnoresPromptOnlyFeatures(f: FinalFeatures, g: FinalFeatures, fmt: Formatter)
    requires ClassifierFeatures(f) == ClassifierFeatures(g)
    ensures FallbackResult(Classified(ClassifierFeatures(f), fmt)) == FallbackResult(Classified(ClassifierFeatures(g), fmt))
  {
  }

  /** The user's rainfall wins whenever there is one, zero included. */
  lemma FinalRainfallSpec(user: Option<real>, looked: Option<real>)
    ensures user.Some? ==> FinalRainfall(user, looked) == user.value
    ensures user.None? && looked.Some? ==> FinalRainfall(user, looked) == looked.value
    ensures user.None? && looked.None? ==> FinalRainfall(user, looked) == 800.0
  {
  }
}
