# Tree advisor, modelled in Dafny

The tree advisor takes what a grower knows about a plot and says how strongly
a tree should be planted there. The inputs are a tree, a soil name (often a
vernacular one such as "lal mati"), a region, the rainfall, the temperature,
the purpose and the land size. The answer has a priority (High, Medium or
Low), a suitability, a reason, recommendations and commercial advice.

Missing soil pH and rainfall are looked up for the region:
- the region is geocoded;
- SoilGrids supplies the pH;
- the Open-Meteo climate API supplies monthly precipitation.

A language model (Gemini) is asked for the recommendation when an API key is
configured. Otherwise, or when its answer cannot be used, a rule-based scorer
decides, and the answer uses fixed texts for each tier.

There are two front ends:
- a terminal program, `main()` in `tree_advisor/main.py`;
- the web entry point `run_tree_advisor` in `tree_advisor/tree_advisor.py`.

The model covers the deterministic core of both:
- the input normalisers;
- the pH extraction and its sanity check;
- the annual-rainfall sum;
- the scorer;
- the reconciliation of user values, looked-up values and defaults;
- the choice between the language model and the fallback, and the filling of
  missing result keys;
- the display string;
- the chat prompt window.

Every web request, the language model and `json.loads` become parameters.

Modules, one per part of the program:

| module | file | models |
|---|---|---|
| `Wrappers` | wrappers.dfy | `Option` (Python `None`) and `Result` (an escaping exception) |
| `Text` | text.dfy | `strip`, `lower`, `in` on strings, `find`, the digits-and-dots filter and an ASCII `float()` |
| `Json` | json.dfy | decoded JSON values, dict lookup and `get`, `float(v)`, `str(v)` |
| `Normalizer`, `NormalizerExamples` | normalizer.dfy, normalizer_examples.dfy | `SOIL_MAP`, `RAINFALL_MAP`, `normalize_soil_input`, `parse_rainfall_input`, `parse_land_size` |
| `Rounding` | rounding.dfy | `round(x, 1)` and `round(x, 2)` |
| `SoilPh` | soil_ph.dfy | the probes, `search_for_ph` and the scale check of `query_soilgrids_ph` |
| `Climate` | climate.dfy | `geocode_region`'s blank gate and `get_region_ph_and_rainfall` |
| `Scorer`, `ScorerExamples` | scorer.dfy | `rule_based_classify` |
| `Advice` | advice.dfy | tier templates, the fallback dict, the `setdefault` fill, JSON extraction from the model's reply, the display string, and the features and rules both front ends share |
| `Chat` | chat.dfy | `build_chat_prompt` |
| `Terminal` | terminal.dfy | `collect_user_input` and `main()` |
| `WebAdvisor` | web_advisor.dfy | `run_tree_advisor` |

Code that changes variables step by step is modelled as methods with loops or
reassignments, proved against a specification function. This covers:
- `rule_based_classify`;
- `search_for_ph`;
- `build_chat_prompt`;
- the `setdefault` sequences;
- `main()` and `run_tree_advisor`.

The rest is modelled as functions, with lemmas stating the properties.

Each of `main()` and `run_tree_advisor` is split into three steps that follow
the source's own sections: reconciliation, the language-model attempt, and the
fallback.

Floats are Dafny `real`s. Python's `round` is modelled on exact decimals: the
nearest multiple of 10^-n, with halves going to the even neighbour.

## Model

| member | source | states |
|---|---|---|
| Normalizer.NormalizeSoil | tree_advisor/main.py:258-260 | `normalize_soil_input`: the table lookup of the stripped, lower-cased text, falling back to that text; its properties are the lemmas below |
| Normalizer.NormalizeSoilResult | tree_advisor/main.py:258-260 | the normalised soil is canonical (stripped, no upper case); a name whose stripped, lower-cased form is a table key gets that key's category, and any other name comes back as its stripped, lower-cased form |
| Normalizer.NormalizeSoilCanonInvariant | tree_advisor/main.py:258-260 | surrounding whitespace and capitals do not change the result |
| Normalizer.NormalizeSoilIdempotent | tree_advisor/main.py:22-41 | normalising twice equals normalising once, because every table value is itself a fixed point |
| Normalizer.NormalizeSoilTable | tree_advisor/main.py:22-41 | every table key, typed as listed, gets its table value |
| Normalizer.SoilCategoriesCanonical | tree_advisor/main.py:22-41 | every soil category of the table is canonical |
| Normalizer.SoilCategoriesStable | tree_advisor/main.py:22-41 | a category that is also a key maps to itself |
| NormalizerExamples.NormalizeSoilLalMati | tree_advisor/main.py:23 | "lal mati" becomes "red soil" |
| NormalizerExamples.NormalizeSoilUnknown | tree_advisor/main.py:258-260 | an unknown name is returned lower-cased: "Laterite" gives "laterite" |
| Normalizer.BlankIsUnknown | tree_advisor/main.py:262-265 | blank or whitespace-only text gives None for both rainfall and land size |
| Normalizer.ParseRainfall | tree_advisor/main.py:262-273 | `parse_rainfall_input`: blank is None, then the digits and points read as a number, then the category table; its properties are the lemmas below |
| Normalizer.ParseLandSize | tree_advisor/main.py:275-289 | `parse_land_size`: blank is None, an "ac" or "ha" suffix scales the number before it, anything else reads through its digits and points; its properties are the lemmas below |
| Normalizer.RainfallNumberWithUnit | tree_advisor/main.py:266-270 | a number followed by letters and spaces reads as that number |
| NormalizerExamples.RainfallWithUnit | tree_advisor/main.py:269 | "1200 mm" gives 1200 |
| Normalizer.RainfallDecimalWithUnit | tree_advisor/main.py:266-270 | a decimal number followed by letters and spaces reads as that decimal |
| NormalizerExamples.RainfallDecimal | tree_advisor/main.py:269 | "12.5 mm" gives 12.5 |
| Normalizer.RainfallCategory | tree_advisor/main.py:271-273 | a category name, however padded or capitalised, gives the table's rainfall, because the number reading fails first |
| Normalizer.CategoryNotNumber | tree_advisor/main.py:44-49 | no category name has digits or points, so none reads as a number |
| NormalizerExamples.RainfallHigh | tree_advisor/main.py:48 | "High" gives 1200 |
| NormalizerExamples.RainfallUnknown | tree_advisor/main.py:271-273 | text that is neither a number nor a category gives None |
| Normalizer.RainfallWithoutDigits | tree_advisor/main.py:266-273 | text without a digit that is not a category gives None |
| Normalizer.LandSizeAcres | tree_advisor/main.py:280-282 | a number followed by "ac" is that many times 4046.86 square metres |
| Normalizer.AcresSuffix | tree_advisor/main.py:280-282 | any number `float()` reads, whole or decimal, followed by "ac" is that many times 4046.86 square metres |
| Normalizer.LandSizeHectares | tree_advisor/main.py:283-285 | a whole number followed by "ha" is that many times 10000 square metres |
| Normalizer.HectaresSuffix | tree_advisor/main.py:283-285 | any number `float()` reads, whole or decimal, followed by "ha" is that many times 10000 square metres |
| Normalizer.LandSizePlain | tree_advisor/main.py:286-287 | a bare whole number is that many square metres |
| Normalizer.PlainNumber | tree_advisor/main.py:286-287 | any bare number `float()` reads, whole or decimal, is that many square metres |
| Normalizer.LandSizeWithoutDigits | tree_advisor/main.py:275-289 | text without a digit gives None, whether or not it ends in "ac" or "ha" |
| NormalizerExamples.LandSizeTwoAcres | tree_advisor/main.py:280-282 | "2ac" gives 8093.72 |
| NormalizerExamples.LandSizeOneHectare | tree_advisor/main.py:283-285 | "1ha" gives 10000 |
| NormalizerExamples.LandSizeInWords | tree_advisor/main.py:286-289 | "big" gives None |
| NormalizerExamples.LandSizeAcresSpelledOut | tree_advisor/main.py:286-287 | "2 acres" has no known suffix and is read as 2 square metres |
| Text.CanonIdempotent | tree_advisor/main.py:259 | stripping and lower-casing twice equals doing it once |
| Text.CanonicalIffFixed | tree_advisor/main.py:259 | text is unchanged by strip-and-lower exactly when it is stripped and has no capitals |
| Text.DigitsAndDotsShape | tree_advisor/main.py:268 | the filter keeps only digits and points, and never lengthens its input |
| Text.DigitsAndDotsAppend | tree_advisor/main.py:268 | the filter distributes over concatenation |
| Text.ParseNatToString | tree_advisor/main.py:268 | `float()` of the decimal rendering of a natural number gives the number back |
| Text.ParseDigits | tree_advisor/main.py:268 | `float()` of any non-empty digit string, leading zeros included, is its value |
| Text.ParseDecimal | tree_advisor/main.py:269 | `float()` of a whole part, a point and fraction digits is their decimal value |
| Text.NoDigitsNotNumber | tree_advisor/main.py:269 | `float()` refuses text that holds no digit, whatever its points, signs and spaces |
| Text.FindCharSpec | tree_advisor/tree_advisor.py:66 | `find` gives -1 exactly when the character is absent, and otherwise its first position |
| Rounding.RoundHalfEvenNearest | tree_advisor/main.py:126 | rounding is within one half, and a tie goes to the even integer |
| Rounding.RoundHalfEvenBest | tree_advisor/main.py:126 | no integer is nearer than the rounded one |
| Rounding.RoundHalfEvenMonotone | tree_advisor/main.py:126 | rounding preserves order |
| Rounding.Round2Near | tree_advisor/main.py:126 | `round(x, 2)` is within 0.005 of x |
| Rounding.Round1Near | tree_advisor/main.py:156 | `round(x, 1)` is within 0.05 of x |
| Rounding.Round2Within | tree_advisor/main.py:125-126 | rounding to two places keeps a value inside an interval whose bounds have two decimals |
| SoilPh.ProbeMean | tree_advisor/main.py:87-91 | the first probe: `properties.phh2o.mean` when `phh2o` is a dict holding `mean`; `MeanDecides` states when it decides |
| SoilPh.ProbePhihox | tree_advisor/main.py:93-95 | the second probe: `properties.PHIHOX.phh2o_mean`, raising when `PHIHOX` is not a dict; `PhihoxDecides` states when it decides |
| SoilPh.FirstPh | tree_advisor/main.py:100-113 | `search_for_ph` as a recursive function: the first numeric value under a key containing "ph", depth first, in key order; `FirstPhIsFirstCandidate` relates it to the candidate list |
| SoilPh.RawPh | tree_advisor/main.py:83-114 | the raw pH: the mean probe, then the PHIHOX probe, then the search, each only when the previous found nothing |
| SoilPh.ScalePh | tree_advisor/main.py:121-126 | the scale check: above 14 divided by ten once, accepted inside (0, 14) and rounded to two decimals; `ScalePhSpec` states it |
| SoilPh.QuerySoilgridsPh | tree_advisor/main.py:70-129 | `query_soilgrids_ph` on the reply body: None when the request failed or anything raised; `QueryInRange` bounds it |
| SoilPh.Member | tree_advisor/main.py:87 | Python `in` is defined on dicts, lists and strings, and raises on anything else |
| SoilPh.SearchForPh | tree_advisor/main.py:100-113 | the loops with early returns compute the depth-first search `FirstPh` |
| SoilPh.FirstPhIsFirstCandidate | tree_advisor/main.py:100-113 | the search returns the first item of the independently defined list of all pH candidates in depth-first key order |
| SoilPh.FirstPhNumeric | tree_advisor/main.py:103 | whatever the search returns is numeric; `bool` counts, as in Python |
| SoilPh.MeanDecides | tree_advisor/main.py:87-91 | when `properties.phh2o.mean` gives a value or raises, that decides the raw pH |
| SoilPh.PhihoxDecides | tree_advisor/main.py:93-95 | when the first probe finds nothing, `PHIHOX.phh2o_mean` decides if it gives a value or raises |
| SoilPh.SearchDecides | tree_advisor/main.py:97-114 | only when both probes find nothing does the search over `properties` decide |
| SoilPh.RawPhOnlyProperties | tree_advisor/main.py:83 | only the `properties` member of the reply matters |
| SoilPh.ScalePhSpec | tree_advisor/main.py:121-126 | a pH is returned exactly when p is in (0, 14), or in (14, 140) where it is divided by ten once; the value is the rounding to two decimals |
| SoilPh.ScalePhBounds | tree_advisor/main.py:121-126 | a returned pH lies in [0, 14]; an unscaled one is within 0.005 of the raw value |
| SoilPh.ScalePhExamples | tree_advisor/main.py:121-126 | 65 gives 6.5, 15 gives 1.5 and 6.5 is kept, while 14, 150 and 0 are rejected |
| SoilPh.QueryInRange | tree_advisor/main.py:70-129 | any pH the query returns lies in [0, 14] |
| Climate.GeocodeRegion | tree_advisor/main.py:52-68 | `geocode_region`: the geocoder's answer for the stripped name, never asked for a blank one |
| Climate.AnnualRainfall | tree_advisor/main.py:149-158 | the annual rainfall of a climate reply: the first twelve `monthly.precipitation_sum` values summed and rounded to one decimal, None when anything is missing or not a number |
| Climate.RegionPhAndRainfall | tree_advisor/main.py:131-162 | `get_region_ph_and_rainfall`: nothing without coordinates, otherwise the soil query's pH and the climate reply's rainfall |
| Climate.GeocodeBlank | tree_advisor/main.py:55-57 | a blank region is never geocoded |
| Climate.NoCoordsNothing | tree_advisor/main.py:135-137 | without coordinates there is neither pH nor rainfall |
| Climate.RegionPhInRange | tree_advisor/main.py:131-162 | the region's pH, when there is one, lies in [0, 14] |
| Climate.Months | tree_advisor/main.py:152-155 | the values summed are exactly twelve |
| Climate.SumFloatsDefined | tree_advisor/main.py:155 | the sum exists exactly when every value reads as a number |
| Climate.SumFloatsAppend | tree_advisor/main.py:155 | sums split over concatenation |
| Climate.TooFewMonths | tree_advisor/main.py:152-153 | fewer than twelve monthly values, as a list or as a string, give no rainfall, whatever else the reply holds |
| Climate.AnnualRainfallOnlyMonthly | tree_advisor/main.py:152 | of the climate reply only its `monthly` member matters |
| Climate.ExtraMonthsIgnored | tree_advisor/main.py:155 | values after the twelfth do not count |
| Climate.TwelveMonths | tree_advisor/main.py:152-156 | in any reply whose `monthly` holds twelve numbers, the rainfall is their sum rounded to one decimal |
| Climate.AnnualRainfallNonNegative | tree_advisor/main.py:152-156 | in any reply, at least twelve non-negative monthly values give a non-negative year |
| Scorer.Score | tree_advisor/main.py:196-209 | the score: one point for a preferred soil, up to two for pH, up to two for rainfall, one for temperature; `ScoreBounds` and `ScoreMax` state its range |
| Scorer.TierOf | tree_advisor/main.py:211-216 | the priority for a score; `TierOfSpec` states its thresholds |
| Scorer.RuleBasedClassify | tree_advisor/main.py:190-219 | the `any` loop and the `+=` steps give the tier of `Score`, the reason text, and empty recommendation and commercial advice |
| Scorer.ScoreBounds | tree_advisor/main.py:196-209 | the score is always between 0 and 6 |
| Scorer.TierOfSpec | tree_advisor/main.py:211-216 | High iff score ≥ 5, Medium iff 3 ≤ score ≤ 4, Low iff score < 3 |
| Scorer.ScoreMax | tree_advisor/main.py:196-209 | the score is 6 exactly when every feature earns its full points |
| Scorer.PhPointsByDistance | tree_advisor/main.py:200-203 | a pH nearer to 6.5 never earns fewer points |
| Scorer.RainfallPointsMonotone | tree_advisor/main.py:204-207 | more rainfall never earns fewer points |
| Scorer.DefaultsScoreMedium | tree_advisor/main.py:191-194 | with every feature missing, the defaults pH 6.5, rainfall 800 and temperature 25 score 4, which is Medium |
| Scorer.PrefersSoilCore | tree_advisor/main.py:196-198 | a soil is preferred exactly when it contains "loam", "clay", "red soil" or "black soil" |
| ScorerExamples.ClaySoilPreferred | tree_advisor/main.py:198 | "clay soil" earns the soil point |
| ScorerExamples.SandySoilNotPreferred | tree_advisor/main.py:198 | "sandy soil" does not earn it |
| ScorerExamples.AlluvialSoilNotPreferred | tree_advisor/main.py:198 | "alluvial soil" does not earn it |
| ScorerExamples.IdealIsHigh | tree_advisor/main.py:196-212 | loamy soil, pH 6.5, 1000 mm and 25 C score 6 |
| ScorerExamples.HarshIsLow | tree_advisor/main.py:196-216 | sandy soil, pH 4.5, 200 mm and 40 C are Low |
| Advice.SetDefault | tree_advisor/tree_advisor.py:69 | `dict.setdefault`: a present key is left alone, a missing one is appended with the default; `SetDefaultExtends` and the lookup lemmas state it |
| Advice.WithDefaults | tree_advisor/tree_advisor.py:69-73 | the defaults applied one `setdefault` after another; the lemmas below state what the fill keeps and adds |
| Advice.FillDefaults | tree_advisor/tree_advisor.py:69-73 | the five `setdefault` statements apply the defaults "Medium", "Yes", "No reason provided.", "" and "" in order |
| Advice.FillDefaultsViaGet | tree_advisor/main.py:411-415 | the `setdefault(k, parsed.get(k, d))` form gives the same dict |
| Advice.SetDefaultViaGet | tree_advisor/main.py:411 | `setdefault(k, d.get(k, v))` does what `setdefault(k, v)` does |
| Advice.DefaultsKeepReply | tree_advisor/tree_advisor.py:69-73 | the model's reply stays a prefix of the filled dict: nothing is overwritten, removed or reordered |
| Advice.PresentKeyKept | tree_advisor/tree_advisor.py:69-73 | a key the reply holds keeps its value, unvalidated |
| Advice.MissingKeyDefaulted | tree_advisor/tree_advisor.py:69-73 | a result key the reply lacks gets its default |
| Advice.AllResultKeysPresent | tree_advisor/tree_advisor.py:69-73 | after the fill all five result keys are present |
| Advice.DefaultsIdempotent | tree_advisor/tree_advisor.py:69-73 | filling twice is filling once |
| Advice.JsonText | tree_advisor/tree_advisor.py:66-67 | the text handed to `json.loads`; `JsonTextSpec` states it |
| Advice.LlmResult | tree_advisor/tree_advisor.py:61-76 | the language-model result: a key, an answer and a dict from `json.loads`, filled with the defaults; None otherwise; `LlmResultSpec` states it |
| Advice.FallbackResult | tree_advisor/tree_advisor.py:79-97 | the fallback dict for a classification; `FallbackSpec` states its fields |
| Advice.ChosenResult | tree_advisor/tree_advisor.py:60-97 | the model's result when there is one, else the fallback for the classifier's tier; `ChosenResultComplete` and `NoKeyFallback` state it |
| Advice.OutputText | tree_advisor/tree_advisor.py:100-107 | the display string, stripped; the `Output` lemmas below state its ends |
| Advice.JsonTextSpec | tree_advisor/tree_advisor.py:66-67 | the JSON text is the reply from its first "{", or the whole reply without one |
| Advice.LlmResultSpec | tree_advisor/tree_advisor.py:61-76 | the model's result is used exactly when a key is set, the call answers, and the JSON text parses as a dict |
| Advice.FallbackSpec | tree_advisor/tree_advisor.py:79-97 | the fallback carries the classifier's priority and reason, says "No" exactly for Low, and holds its tier's fixed texts |
| Advice.ChosenResultComplete | tree_advisor/tree_advisor.py:61-97 | whichever path decides, the result holds all five keys |
| Advice.NoKeyFallback | tree_advisor/tree_advisor.py:62 | without a key the fallback decides |
| Advice.FallbackIgnoresPromptOnlyFeatures | tree_advisor/tree_advisor.py:80-97 | the fallback depends only on soil, pH, rainfall and temperature, never on tree, purpose or land size |
| Advice.FinalRainfallSpec | tree_advisor/tree_advisor.py:39-45 | the user's rainfall wins, zero included; then the looked-up one; then 800 |
| Advice.OutputStartsWithPriority | tree_advisor/tree_advisor.py:100-107 | the stripped display string still starts with "Priority:" |
| Advice.OutputEndsWithAdvice | tree_advisor/tree_advisor.py:100-107 | when the commercial advice ends in visible text, the display string ends with the "Commercial advice:" section holding it |
| Advice.OutputEmptyAdvice | tree_advisor/tree_advisor.py:100-107 | with empty commercial advice, the string ends with the bare header once the newline is stripped |
| Chat.BuildChatPrompt | tree_advisor/main.py:249-255 | the loop builds `ChatPrompt`: the window's exchanges, then the question |
| Chat.WindowIsLastPairs | tree_advisor/main.py:252 | the window is the last min(n, 6) pairs, in order |
| Chat.OlderHistoryIgnored | tree_advisor/main.py:252 | once six pairs exist, older history does not reach the prompt |
| Chat.ShortHistoryWhole | tree_advisor/main.py:252-254 | a history of at most six pairs is included whole |
| Chat.TranscriptAppend | tree_advisor/main.py:252-253 | transcripts split over concatenation |
| Chat.TranscriptOneMore | tree_advisor/main.py:253 | each exchange adds its own two lines and nothing else |
| Chat.PromptEndsWithQuestion | tree_advisor/main.py:254 | every prompt ends by asking the new question |
| Chat.EmptyHistory | tree_advisor/main.py:254 | without history the prompt is the question alone |
| Terminal.CollectUserInput | tree_advisor/main.py:292-319 | `collect_user_input` on the typed answers: each stripped, with the defaults "Mango", "loamy" and "Personal", and rainfall, temperature and land size parsed |
| Terminal.Reconciled | tree_advisor/main.py:345-394 | the final features of `main()`: the region's pH or 6.5, the user's rainfall or the region's or 800, the land size `or 200.0`; the `Terminal` lemmas below state each |
| Terminal.RunTerminal | tree_advisor/main.py:341-443 | `main()` computes `TerminalFeatures` and the chosen result |
| Terminal.Reconcile | tree_advisor/main.py:345-394 | the region gate, the rainfall chain, and the pH and land-size defaults compute `Reconciled` |
| Terminal.Recommend | tree_advisor/main.py:396-443 | the model's result, else the fallback for the classifier's tier |
| Terminal.TryModel | tree_advisor/main.py:397-420 | the language-model attempt gives `LlmResult` |
| Terminal.CollectedRainfallParsed | tree_advisor/main.py:298-299 | the collected rainfall is the parse of the rainfall answer when there is one |
| Terminal.BlankAnswersDefaults | tree_advisor/main.py:294-305 | blank answers give "Mango", "loamy" (normalised to "loamy soil") and "Personal" |
| Terminal.TerminalRainfall | tree_advisor/main.py:367-376 | the user's rainfall, zero included; else the region's; else 800, because the re-parse at line 374 repeats a failed parse |
| Terminal.TerminalPh | tree_advisor/main.py:347-378 | the pH is the region lookup's value when there is one, which lies in [0, 14], and 6.5 otherwise; a blank region gives 6.5 |
| Terminal.TerminalLandSize | tree_advisor/main.py:381 | a missing land size and one that reads as zero both become 200 |
| Terminal.TerminalTemperature | tree_advisor/main.py:300-304 | the temperature answer is read as a number, or 25 when blank or unreadable |
| WebAdvisor.WebFeatures | tree_advisor/tree_advisor.py:13-58 | the final features of `run_tree_advisor`, or the exception `float(None)` raises; the `Web` lemmas below state each feature |
| WebAdvisor.WebOutput | tree_advisor/tree_advisor.py:13-107 | the display string for the chosen result, or the exception; `WebFailsIff` states when it fails |
| WebAdvisor.RunTreeAdvisor | tree_advisor/tree_advisor.py:13-107 | `run_tree_advisor` returns `WebOutput` |
| WebAdvisor.Reconcile | tree_advisor/tree_advisor.py:14-58 | the parsing, the region lookup and the rainfall chain compute `WebFeatures` |
| WebAdvisor.Recommend | tree_advisor/tree_advisor.py:60-97 | the model's result, else the fallback |
| WebAdvisor.TryModel | tree_advisor/tree_advisor.py:60-76 | the language-model attempt gives `LlmResult` |
| WebAdvisor.WebFailsIff | tree_advisor/tree_advisor.py:27 | the advisor raises exactly when a land size is given and does not parse, because of `float(None)` at line 57 |
| WebAdvisor.WebLandSize | tree_advisor/tree_advisor.py:27 | an empty land size is 200; a parsed one is kept, zero included |
| WebAdvisor.WebTemperature | tree_advisor/tree_advisor.py:21-24 | on success the temperature is the `float()` reading of the text, or 25 when the text is empty or unreadable |
| WebAdvisor.WebRainfall | tree_advisor/tree_advisor.py:18 | the user's rainfall, zero included; else the region's; else 800 |
| WebAdvisor.WebPh | tree_advisor/tree_advisor.py:30-36 | the pH is the region lookup's value when there is one, which lies in [0, 14], and 6.5 otherwise; without a region it is 6.5 |
| WebAdvisor.FallbackOutputIgnores | tree_advisor/tree_advisor.py:79-107 | without a key, tree, purpose and a readable land size do not change the answer |
| WebAdvisor.WebOutputStartsWithPriority | tree_advisor/tree_advisor.py:100-107 | every answer starts with its "Priority:" section |
| WebAdvisor.ZeroLandSizeDiffers | tree_advisor/tree_advisor.py:27 | a land size that reads as zero becomes 200 in the terminal program and stays 0 on the web |

## Left out

- tree_advisor/web.py, the Flask route and its template, is not part of this model: it only presents the result.
- The HTTP requests are not modelled. Geocoding, SoilGrids, the climate API and the Gemini call go through `Services` and `LanguageModel`, which are parameters. A failed request, a non-200 status or a reply that is not JSON is `None`.
- Environment reading is a parameter. `load_dotenv` and `os.getenv` become `LanguageModel.apiKey`.
- Terminal I/O is not modelled. The `input` calls of `collect_user_input` are the `Terminal.Answers` parameter. `pretty_print_result` and all progress messages are left out.
- `main()` geocodes the region twice, once for the gate and once inside `get_region_ph_and_rainfall`. The geocoder is a pure parameter, so both calls give the same coordinates and the model geocodes once per call site.
- `json.loads` is the parameter `LanguageModel.loads`. How `call_gemini_once` picks the text out of Gemini's response is part of `LanguageModel.reply`.
- `build_recommendation_prompt` is a fixed template with no behaviour. The reply is modelled as a function of the features the prompt is built from.
- Python `float()` is read as ASCII decimal text. It accepts surrounding whitespace, one sign, digits and one point. Exponents, "inf", "nan", underscores and non-ASCII digits are not modelled.
- Whitespace and case are ASCII only. `strip` removes the ASCII characters that `str.isspace` accepts, and `lower` changes only A-Z.
- Float formatting is a parameter. `repr` of a float in the reason text, and `str` of a list or dict shown in the output, are supplied by `Json.Formatter`.
- Rounding.Round1 and Rounding.Round2 use exact decimal values. Python rounds the binary double, so a value such as 2.675, which is stored just below itself, can round differently in the program.
- Binary floating point in the arithmetic is not modelled. Sums and products of the pH, rainfall and land size are exact on `real`s.
- Python's `int` and `float` are not distinguished: JSON numbers are one `Num` case. A JSON `true` or `false` counts as a number in the pH search, because Python's `bool` is a subclass of `int` and `isinstance(v, (int, float))` accepts it.
- `main()` has no chat loop, although the module docstring (tree_advisor/main.py:7) promises one: it ends after printing the recommendation. `build_chat_prompt` (tree_advisor/main.py:249-255) has no caller in either file, and is modelled as the unused helper it is. Its history entries are modelled as pairs of strings.
- Json.Lookup takes the first entry with a key. A Python dict never holds a key twice, so this matches the program.
