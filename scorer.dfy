/** `rule_based_classify`: a score from 0 to 6 from soil, pH, rainfall and
    temperature, and the priority tier it falls in. */
module Scorer {
  import opened Wrappers
  import opened Text
  import opened Json

  datatype Tier = High | Medium | Low

  /** The spelling of a tier in the result dict. */
  function TierName(t: Tier): string {
    match t
    case High => "High"
    case Medium => "Medium"
    case Low => "Low"
  }

  /** The features the classifier reads; a missing one takes its default. */
  datatype Features = Features(soil: Option<string>, ph: Option<real>, rainfall: Option<real>, temp: Option<real>)

  /** The dict `rule_based_classify` returns. */
  datatype Classification = Classification(priority: Tier, reason: string, recommendation: string, commercialAdvice: string)

  const DEFAULT_PH: real := 6.5
  const DEFAULT_RAINFALL: real := 800.0
  const DEFAULT_TEMP: real := 25.0

  const PREFERRED: seq<string> := ["loamy", "loamy soil", "loam", "clay", "sandy loam", "red soil", "black soil"]

  /** `any(p in soil for p in preferred)`. */
  predicate PrefersSoil(soil: string) {
    exists i :: 0 <= i < |PREFERRED| && Contains(soil, PREFERRED[i])
  }

  function SoilOf(f: Features): string { Lower(f.soil.GetOr("")) }
  function PhOf(f: Features): real { f.ph.GetOr(DEFAULT_PH) }
  function RainfallOf(f: Features): real { f.rainfall.GetOr(DEFAULT_RAINFALL) }
  function TempOf(f: Features): real { f.temp.GetOr(DEFAULT_TEMP) }

  function SoilPoints(soil: string): int {
    if PrefersSoil(soil) then 1 else 0
  }

  function PhPoints(ph: real): int {
    if 5.5 <= ph <= 7.5 then 2
    else if 5.0 <= ph < 5.5 || 7.5 < ph <= 8.0 then 1
    else 0
  }

  function RainfallPoints(mm: real): int {
    if mm >= 900.0 then 2
    else if 500.0 <= mm < 900.0 then 1
    else 0
  }

  function TempPoints(c: real): int {
    if 10.0 <= c <= 35.0 then 1 else 0
  }

  /** The score of a set of features: the points of each feature added up. */
  function Score(f: Features): int {
    SoilPoints(SoilOf(f)) + PhPoints(PhOf(f)) + RainfallPoints(RainfallOf(f)) + TempPoints(TempOf(f))
  }

  /** The tier of a score. */
  function TierOf(score: int): Tier {
    if score >= 5 then High
    else if score >= 3 then Medium
    else Low
  }

  /** `Soil='…', pH=…, rainfall=…mm`, with the lower-cased soil. */
  function ReasonText(f: Features, fmt: Formatter): string {
    "Soil='" + SoilOf(f) + "', pH=" + fmt.number(PhOf(f)) + ", rainfall=" + fmt.number(RainfallOf(f)) + "mm"
  }

  /** `rule_based_classify`, accumulating the score step by step. */
  method RuleBasedClassify(f: Features, fmt: Formatter) returns (r: Classification)
    ensures r.priority == TierOf(Score(f))
    ensures r.reason == ReasonText(f, fmt)
    ensures r.recommendation == "" && r.commercialAdvice == ""
  {
    var soil := Lower(f.soil.GetOr(""));
    var ph := f.ph.GetOr(DEFAULT_PH);
    var rainfall := f.rainfall.GetOr(DEFAULT_RAINFALL);
    var temp := f.temp.GetOr(DEFAULT_TEMP);

    var preferred := false;
    var i := 0;
    while i < |PREFERRED| && !preferred
      invariant 0 <= i <= |PREFERRED|
      invariant preferred <==> exists j :: 0 <= j < i && Contains(soil, PREFERRED[j])
    {
      preferred := Contains(soil, PREFERRED[i]);
      i := i + 1;
    }

    var score := 0;
    if preferred {
      score := score + 1;
    }
    if 5.5 <= ph <= 7.5 {
      score := score + 2;
    } else if 5.0 <= ph < 5.5 || 7.5 < ph <= 8.0 {
      score := score + 1;
    }
    if rainfall >= 900.0 {
      score := score + 2;
    } else if 500.0 <= rainfall < 900.0 {
      score := score + 1;
    }
    if 10.0 <= temp <= 35.0 {
      score := score + 1;
    }

    var priority;
    if score >= 5 {
      priority := High;
    } else if score >= 3 {
      priority := Medium;
    } else {
      priority := Low;
    }
    var reason := "Soil='" + soil + "', pH=" + fmt.number(ph) + ", rainfall=" + fmt.number(rainfall) + "mm";
    r := Classification(priority, reason, "", "");
  }

  /** The score is always between 0 and 6. */
  lemma ScoreBounds(f: Features)
    ensures 0 <= Score(f) <= 6
  {
  }

  /** The tiers, as an if-and-only-if each. */
  lemma TierOfSpec(score: int)
    ensures TierOf(score) == High <==> score >= 5
    ensures TierOf(score) == Medium <==> 3 <= score <= 4
    ensures TierOf(score) == Low <==> score < 3
  {
  }

  /** The score is 6 exactly when every feature earns its full points. */
  lemma ScoreMax(f: Features)
    ensures Score(f) == 6 <==>
      PrefersSoil(SoilOf(f)) && 5.5 <= PhOf(f) <= 7.5 && RainfallOf(f) >= 900.0 && 10.0 <= TempOf(f) <= 35.0
  {
  }

  /** The pH points depend only on the distance from 6.5, and a pH nearer to
      6.5 never earns fewer. */
  lemma PhPointsByDistance(a: real, b: real)
    requires Abs(a - 6.5) <= Abs(b - 6.5)
    ensures PhPoints(a) >= PhPoints(b)
  {
  }

  function Abs(x: real): real { if x < 0.0 then -x else x }

  /** More rainfall never lowers the rainfall points. */
  lemma RainfallPointsMonotone(a: real, b: real)
    requires a <= b
    ensures RainfallPoints(a) <= RainfallPoints(b)
  {
  }

  /** With every feature missing, the defaults score 4: Medium. */
  lemma DefaultsScoreMedium()
    ensures Score(Features(None, None, None, None)) == 4
    ensures TierOf(Score(Features(None, None, None, None))) == Medium
  {
    assert Lower("") == "";
    assert !Contains("", "loamy");
    assert !PrefersSoil("") by {
      forall i | 0 <= i < |PREFERRED|
        ensures !Contains("", PREFERRED[i])
      {
        assert |PREFERRED[i]| > 0;
      }
    }
  }

  /** The preferred list reduces to four names: every other entry has one of
      them inside it. */
  lemma PrefersSoilCore(soil: string)
    ensures PrefersSoil(soil) <==>
      Contains(soil, "loam") || Contains(soil, "clay") || Contains(soil, "red soil") || Contains(soil, "black soil")
  {
    assert PREFERRED[2] == "loam" && PREFERRED[3] == "clay";
    assert PREFERRED[5] == "red soil" && PREFERRED[6] == "black soil";
    if PrefersSoil(soil) {
      var i :| 0 <= i < |PREFERRED| && Contains(soil, PREFERRED[i]);
      if i == 0 {
        LoamInside("loamy");
        ContainsTransitive(soil, "loamy", "loam");
      } else if i == 1 {
        LoamInside("loamy soil");
        ContainsTransitive(soil, "loamy soil", "loam");
      } else if i == 4 {
        LoamInside("sandy loam");
        ContainsTransitive(soil, "sandy loam", "loam");
      }
    }
  }

  lemma LoamInside(name: string)
    requires name == "loamy" || name == "loamy soil" || name == "sandy loam"
    ensures Contains(name, "loam")
  {
    var at := if name == "sandy loam" then 6 else 0;
    assert OccursAt(name, "loam", at);
    ContainsAt(name, "loam");
  }
}

/** Soils and feature sets the classifier is meant to tell apart. */
module ScorerExamples {
  import opened Wrappers
  import opened Text
  import opened Scorer

  lemma ClaySoilPreferred()
    ensures PrefersSoil("clay soil")
  {
    assert OccursAt("clay soil", "clay", 0);
    ContainsAt("clay soil", "clay");
    PrefersSoilCore("clay soil");
  }

  lemma SandySoilNotPreferred()
    ensures !PrefersSoil("sandy soil")
  {
    PrefersSoilCore("sandy soil");
  }

  lemma AlluvialSoilNotPreferred()
    ensures !PrefersSoil("alluvial soil")
  {
    AlluvialLacksLoamAndClay();
    AlluvialLacksRedAndBlack();
    PrefersSoilCore("alluvial soil");
  }

  lemma AlluvialLacksLoamAndClay()
    ensures !Contains("alluvial soil", "loam") && !Contains("alluvial soil", "clay")
  {
    NotContainsMissingChar("alluvial soil", "loam", 'm');
    NotContainsMissingChar("alluvial soil", "clay", 'c');
  }

  lemma AlluvialLacksRedAndBlack()
    ensures !Contains("alluvial soil", "red soil") && !Contains("alluvial soil", "black soil")
  {
    NotContainsMissingChar("alluvial soil", "red soil", 'r');
    NotContainsMissingChar("alluvial soil", "black soil", 'b');
  }


  /** Loamy soil, pH 6.5, 1000 mm and 25 C score the full 6: High. */
  lemma IdealIsHigh()
    ensures Score(Features(Some("loamy soil"), Some(6.5), Some(1000.0), Some(25.0))) == 6
  {
    assert Lower("loamy soil") == "loamy soil";
    LoamInside("loamy soil");
    PrefersSoilCore("loamy soil");
  }

  /** Sandy soil, pH 4.5, 200 mm and 40 C score nothing: Low. */
  lemma HarshIsLow()
    ensures TierOf(Score(Features(Some("sandy soil"), Some(4.5), Some(200.0), Some(40.0)))) == Low
  {
    assert Lower("sandy soil") == "sandy soil";
    SandySoilNotPreferred();
  }
}
