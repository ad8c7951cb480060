/** The input normalisers of the terminal program: soil names through the
    transliteration table, rainfall as a number or a category, land size with
    an acre or hectare suffix. Each is total and answers None instead of
    raising. */
module Normalizer {
  import opened Wrappers
  import opened Text

  /** Vernacular, transliterated and alternate soil names to soil categories. */
  const SOIL_MAP: map<string, string> := map[
    "lal mati" := "red soil",
    "lal maati" := "red soil",
    "lalmatti" := "red soil",
    "kali mati" := "black soil",
    "kalimati" := "black soil",
    "regadi" := "sandy soil",
    "balukamati" := "sandy soil",
    "balukamatti" := "sandy soil",
    "retimati" := "sandy soil",
    "loamy" := "loamy soil",
    "loam" := "loamy soil",
    "loamy soil" := "loamy soil",
    "sandy" := "sandy soil",
    "clay" := "clay soil",
    "clayey" := "clay soil",
    "black soil" := "black soil",
    "red soil" := "red soil",
    "alluvial" := "alluvial soil"
  ]

  /** Representative annual rainfall, in millimetres, of each category. */
  const RAINFALL_MAP: map<string, real> := map[
    "low" := 300.0,
    "moderate" := 700.0,
    "medium" := 700.0,
    "high" := 1200.0
  ]

  const SQUARE_METRES_PER_ACRE: real := 4046.86
  const SQUARE_METRES_PER_HECTARE: real := 10000.0

  /** `normalize_soil_input`: the table's category for the canonical form of
      the text, or that canonical form itself. */
  function NormalizeSoil(text: string): string {
    var t := Canon(text);
    if t in SOIL_MAP then SOIL_MAP[t] else t
  }

  /** `parse_rainfall_input`: blank text is unknown; otherwise the digits and
      points of the text read as a number if they can be, and failing that the
      text itself looked up as a category. */
  function ParseRainfall(text: string): Option<real> {
    var t := Canon(text);
    if t == [] then None
    else
      match ParseFloat(DigitsAndDots(t))
      case Some(mm) => Some(mm)
      case None => if t in RAINFALL_MAP then Some(RAINFALL_MAP[t]) else None
  }

  /** `parse_land_size`, in square metres: a trailing "ac" or "ha" scales the
      number before it; any other text is read through its digits and points. */
  function ParseLandSize(text: string): Option<real> {
    var t := Canon(text);
    if t == [] then None
    else if EndsWith(t, "ac") then
      match ParseFloat(t[..|t| - 2])
      case Some(acres) => Some(acres * SQUARE_METRES_PER_ACRE)
      case None => None
    else if EndsWith(t, "ha") then
      match ParseFloat(t[..|t| - 2])
      case Some(ha) => Some(ha * SQUARE_METRES_PER_HECTARE)
      case None => None
    else ParseFloat(DigitsAndDots(t))
  }

  /** Blank text is neither a rainfall nor a land size. */
  lemma BlankIsUnknown(text: string)
    requires Strip(text) == []
    ensures ParseRainfall(text) == None && ParseLandSize(text) == None
  {
  }

  /** Every category in the soil table is in canonical form. */
  lemma SoilCategoriesCanonical()
    ensures forall k :: k in SOIL_MAP ==> IsCanonical(SOIL_MAP[k])
  {
    var categories := {"red soil", "black soil", "sandy soil", "loamy soil", "clay soil", "alluvial soil"};
    assert forall c :: c in categories ==> IsCanonical(c);
    assert forall k :: k in SOIL_MAP ==> SOIL_MAP[k] in categories;
  }

  /** A category that is itself a key of the soil table maps to itself. */
  lemma SoilCategoriesStable()
    ensures forall k :: k in SOIL_MAP && SOIL_MAP[k] in SOIL_MAP ==> SOIL_MAP[SOIL_MAP[k]] == SOIL_MAP[k]
  {
  }

  /** The normalised soil is canonical. A name the table knows, once
      stripped and lower-cased, gets its category; any other name comes back
      as its own canonical form. */
  lemma NormalizeSoilResult(text: string)
    ensures IsCanonical(NormalizeSoil(text))
    ensures Canon(text) in SOIL_MAP ==> NormalizeSoil(text) == SOIL_MAP[Canon(text)]
    ensures Canon(text) !in SOIL_MAP ==> NormalizeSoil(text) == Canon(text)
    ensures NormalizeSoil(text) in SOIL_MAP.Values || NormalizeSoil(text) !in SOIL_MAP
  {
    SoilCategoriesCanonical();
    CanonIsCanonical(text);
  }

  /** Surrounding whitespace and upper-case letters do not change the result. */
  lemma NormalizeSoilCanonInvariant(text: string)
    ensures NormalizeSoil(text) == NormalizeSoil(Canon(text))
  {
    CanonIdempotent(text);
  }

  /** Normalising an already normalised soil changes nothing. */
  lemma NormalizeSoilIdempotent(text: string)
    ensures NormalizeSoil(NormalizeSoil(text)) == NormalizeSoil(text)
  {
    var r := NormalizeSoil(text);
    NormalizeSoilResult(text);
    CanonicalIffFixed(r);
    SoilCategoriesStable();
  }

  /** Every name of the table, typed as it is listed, gets its category. */
  lemma NormalizeSoilTable()
    ensures forall k :: k in SOIL_MAP ==> NormalizeSoil(k) == SOIL_MAP[k]
  {
    forall k | k in SOIL_MAP
      ensures Canon(k) == k
    {
      assert IsCanonical(k);
      CanonicalIffFixed(k);
    }
  }

  /** Text that is a number followed by a word is already canonical when the
      word is. */
  lemma CanonNumberWithUnit(ds: string, unit: string)
    requires ds != [] && IsDigit(ds[0]) && IsNumeral(ds)
    requires forall i :: 0 <= i < |unit| ==> !IsUpper(unit[i])
    requires unit == [] || !IsSpace(unit[|unit| - 1])
    ensures Canon(ds + unit) == ds + unit
  {
    var t := ds + unit;
    assert IsDigit(ds[0]) && t[0] == ds[0];
    assert IsDigit(ds[|ds| - 1]) || ds[|ds| - 1] == '.';
    assert unit == [] ==> t[|t| - 1] == ds[|ds| - 1];
    assert unit != [] ==> t[|t| - 1] == unit[|unit| - 1];
    forall i | 0 <= i < |t|
      ensures !IsUpper(t[i])
    {
      if i < |ds| {
        assert IsDigit(ds[i]) || ds[i] == '.';
      } else {
        assert t[i] == unit[i - |ds|];
      }
    }
    CanonicalIffFixed(t);
  }

  lemma DigitsOfNumberWithUnit(ds: string, unit: string)
    requires IsNumeral(ds)
    requires forall i :: 0 <= i < |unit| ==> !IsDigit(unit[i]) && unit[i] != '.'
    ensures DigitsAndDots(ds + unit) == ds
  {
    DigitsAndDotsAppend(ds, unit);
    DigitsAndDotsAll(ds);
    DigitsAndDotsNone(unit);
  }

  /** A number followed by a unit without digits or points reads as that
      number of millimetres, whatever the unit says. */
  lemma RainfallNumberWithUnit(n: nat, unit: string)
    requires forall i :: 0 <= i < |unit| ==> !IsDigit(unit[i]) && unit[i] != '.' && !IsUpper(unit[i])
    requires unit == [] || !IsSpace(unit[|unit| - 1])
    ensures ParseRainfall(NatToString(n) + unit) == Some(n as real)
  {
    var ds := NatToString(n);
    CanonNumberWithUnit(ds, unit);
    DigitsOfNumberWithUnit(ds, unit);
    ParseNatToString(n);
  }

  /** A decimal number followed by such a unit reads as that number too. */
  lemma RainfallDecimalWithUnit(w: nat, frac: string, unit: string)
    requires AllDigits(frac)
    requires forall i :: 0 <= i < |unit| ==> !IsDigit(unit[i]) && unit[i] != '.' && !IsUpper(unit[i])
    requires unit == [] || !IsSpace(unit[|unit| - 1])
    ensures ParseRainfall(NatToString(w) + "." + frac + unit) == Some(w as real + FracValue(frac))
  {
    var ds := NatToString(w) + "." + frac;
    DecimalIsNumeral(w, frac);
    CanonNumberWithUnit(ds, unit);
    DigitsOfNumberWithUnit(ds, unit);
    ParseDecimal(w, frac);
  }

  lemma LowHasNoDigits() ensures DigitsAndDots("low") == [] { }
  lemma ModerateHasNoDigits() ensures DigitsAndDots("moderate") == [] { }
  lemma MediumHasNoDigits() ensures DigitsAndDots("medium") == [] { }
  lemma HighHasNoDigits() ensures DigitsAndDots("high") == [] { }


  lemma CategoryHasNoDigits(t: string)
    requires t in RAINFALL_MAP
    ensures DigitsAndDots(t) == []
  {
    LowHasNoDigits();
    ModerateHasNoDigits();
    MediumHasNoDigits();
    HighHasNoDigits();
    assert t == "low" || t == "moderate" || t == "medium" || t == "high";
  }


  /** Category names hold no digits or points, so they do not read as numbers. */
  lemma CategoryNotNumber(t: string)
    requires t in RAINFALL_MAP
    ensures ParseFloat(DigitsAndDots(t)) == None
  {
    CategoryHasNoDigits(t);
    ParseEmpty();
  }

  /** A category name, however padded or capitalised, reads as the table's
      value: category names hold no digits, so the number reading fails. */
  lemma RainfallCategory(text: string)
    requires Canon(text) in RAINFALL_MAP
    ensures ParseRainfall(text) == Some(RAINFALL_MAP[Canon(text)])
  {
    CategoryNotNumber(Canon(text));
  }

  /** A number with a trailing "ac" is that many acres. */
  lemma LandSizeAcres(n: nat)
    ensures ParseLandSize(NatToString(n) + "ac") == Some(n as real * SQUARE_METRES_PER_ACRE)
  {
    var ds := NatToString(n);
    var t := ds + "ac";
    CanonNumberWithUnit(ds, "ac");
    assert EndsWith(t, "ac") && t[..|t| - 2] == ds;
    ParseNatToString(n);
  }

  /** Whole digits, a point and fraction digits form a numeral that starts
      with a digit. */
  lemma DecimalIsNumeral(w: nat, frac: string)
    requires AllDigits(frac)
    ensures var ds := NatToString(w) + "." + frac; IsDigit(ds[0]) && IsNumeral(ds)
  {
    var ws := NatToString(w);
    var ds := ws + "." + frac;
    assert ds[0] == ws[0];
    forall i | 0 <= i < |ds|
      ensures IsDigit(ds[i]) || ds[i] == '.'
    {
      if i < |ws| { assert ds[i] == ws[i]; }
      else if i > |ws| { assert ds[i] == frac[i - |ws| - 1]; }
    }
  }

  /** A number followed by "ac", written any way `float()` reads, is that
      many acres. */
  lemma AcresSuffix(ds: string, acres: real)
    requires ds != [] && IsDigit(ds[0]) && IsNumeral(ds)
    requires ParseFloat(ds) == Some(acres)
    ensures ParseLandSize(ds + "ac") == Some(acres * SQUARE_METRES_PER_ACRE)
  {
    var t := ds + "ac";
    CanonNumberWithUnit(ds, "ac");
    assert t[..|t| - 2] == ds;
    assert t[|t| - 2..] == "ac";
    var c := Canon(t);
    assert c == t;
    assert c != [] && EndsWith(c, "ac");
    assert ParseFloat(c[..|c| - 2]) == Some(acres);
  }

  /** A number with a trailing "ha" is that many hectares. */
  lemma LandSizeHectares(n: nat)
    ensures ParseLandSize(NatToString(n) + "ha") == Some(n as real * SQUARE_METRES_PER_HECTARE)
  {
    var ds := NatToString(n);
    assert IsDigit(ds[0]) && IsNumeral(ds) by {
      assert forall i :: 0 <= i < |ds| ==> IsDigit(ds[i]);
    }
    assert ParseFloat(ds) == Some(n as real) by {
      ParseNatToString(n);
    }
    HectaresSuffix(ds, n as real);
  }

  /** Any number `float()` reads, whole or decimal, followed by "ha" is that
      many hectares. */
  lemma HectaresSuffix(ds: string, ha: real)
    requires ds != [] && IsDigit(ds[0]) && IsNumeral(ds)
    requires ParseFloat(ds) == Some(ha)
    ensures ParseLandSize(ds + "ha") == Some(ha * SQUARE_METRES_PER_HECTARE)
  {
    var t := ds + "ha";
    assert Canon(t) == t by {
      CanonNumberWithUnit(ds, "ha");
    }
    assert t[..|t| - 2] == ds by { }
    assert EndsWith(t, "ha") by {
      assert t[|t| - 2..] == "ha";
    }
    assert !EndsWith(t, "ac") by {
      assert t[|t| - 1] == 'a' && t[|t| - 2] == 'h';
    }
    LandSizeInHectares(t);
  }

  /** Canonical text ending in "ha" but not "ac" is read as hectares. */
  lemma LandSizeInHectares(t: string)
    requires |t| >= 2 && Canon(t) == t && EndsWith(t, "ha") && !EndsWith(t, "ac")
    ensures ParseLandSize(t) == match ParseFloat(t[..|t| - 2])
      case Some(ha) => Some(ha * SQUARE_METRES_PER_HECTARE)
      case None => None
  {
  }

  /** Rainfall text without any digit that is not a category is unknown. */
  lemma RainfallWithoutDigits(text: string)
    requires NoDigits(text) && Canon(text) !in RAINFALL_MAP
    ensures ParseRainfall(text) == None
  {
    CanonNoDigits(text);
    DigitsAndDotsKeepsNoDigits(Canon(text));
    NoDigitsNotNumber(DigitsAndDots(Canon(text)));
  }

  /** Land-size text without any digit is unknown, with or without a unit
      suffix. */
  lemma LandSizeWithoutDigits(text: string)
    requires NoDigits(text)
    ensures ParseLandSize(text) == None
  {
    CanonNoDigits(text);
    var t := Canon(text);
    if |t| >= 2 {
      NoDigitsPrefix(t, |t| - 2);
      NoDigitsNotNumber(t[..|t| - 2]);
    }
    DigitsAndDotsKeepsNoDigits(t);
    NoDigitsNotNumber(DigitsAndDots(t));
  }

  /** A bare number is square metres. */
  lemma LandSizePlain(n: nat)
    ensures ParseLandSize(NatToString(n)) == Some(n as real)
  {
    var ds := NatToString(n);
    assert IsDigit(ds[0]) && IsNumeral(ds) by {
      assert forall i :: 0 <= i < |ds| ==> IsDigit(ds[i]);
    }
    assert ParseFloat(ds) == Some(n as real) by {
      ParseNatToString(n);
    }
    PlainNumber(ds, n as real);
  }

  /** Any number `float()` reads, whole or decimal, on its own is that many
      square metres. */
  lemma PlainNumber(ds: string, v: real)
    requires ds != [] && IsDigit(ds[0]) && IsNumeral(ds)
    requires ParseFloat(ds) == Some(v)
    ensures ParseLandSize(ds) == Some(v)
  {
    CanonNumberWithUnit(ds, "");
    assert ds + "" == ds;
    var c := Canon(ds);
    assert c == ds;
    assert IsDigit(c[|c| - 1]) || c[|c| - 1] == '.';
    assert !EndsWith(c, "ac") && !EndsWith(c, "ha");
    DigitsAndDotsAll(ds);
  }
}
