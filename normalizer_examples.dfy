/** Inputs the terminal program's users type, and what the normalisers make
    of them. */
module NormalizerExamples {
  import opened Wrappers
  import opened Text
  import opened Normalizer

  /** A transliterated name gets its category. */
  lemma NormalizeSoilLalMati()
    ensures NormalizeSoil("lal mati") == "red soil"
  {
    assert Canon("lal mati") == "lal mati";
  }

  /** A name the table does not know is kept, in canonical form. */
  lemma NormalizeSoilUnknown()
    ensures NormalizeSoil("Laterite") == "laterite"
  {
    assert Canon("Laterite") == "laterite";
  }

  /** A number followed by its unit reads as the number. */
  lemma RainfallWithUnit()
    ensures ParseRainfall("1200 mm") == Some(1200.0)
  {
    assert NatToString(1200) == "1200";
    RainfallNumberWithUnit(1200, " mm");
    var t := NatToString(1200) + " mm";
    assert t == "1200 mm";
  }

  /** A capitalised category reads as the category's rainfall. */
  lemma RainfallHigh()
    ensures ParseRainfall("High") == Some(1200.0)
  {
    StripOfStripped("High");
    assert Lower("High")[0] == 'h';
    assert Canon("High") == "high";
    RainfallCategory("High");
  }

  /** Text that is neither a number nor a category is unknown. */
  lemma RainfallUnknown()
    ensures ParseRainfall("plenty") == None
  {
    PlentyIsCanonical();
    PlentyHasNoDigits();
    assert "plenty" !in RAINFALL_MAP;
    ParseEmpty();
  }

  lemma PlentyIsCanonical() ensures Canon("plenty") == "plenty" { }

  lemma PlentyHasNoDigits() ensures DigitsAndDots("plenty") == [] { }


  /** A decimal rainfall with its unit. */
  lemma RainfallDecimal()
    ensures ParseRainfall("12.5 mm") == Some(12.5)
  {
    RainfallDecimalWithUnit(12, "5", " mm");
    assert NatToString(1) == "1";
    assert NatToString(12) == NatToString(1) + [DigitChar(2)] == "12";
    assert FracValue("5") == 0.5;
    var t := "12" + "." + "5" + " mm";
    assert t == "12.5 mm";
  }

  /** A land size in words is unknown. */
  lemma LandSizeInWords()
    ensures ParseLandSize("big") == None
  {
    assert NoDigits("big");
    LandSizeWithoutDigits("big");
  }

  /** Two acres and one hectare, in square metres. */
  lemma LandSizeTwoAcres()
    ensures ParseLandSize("2ac") == Some(8093.72)
  {
    LandSizeAcres(2);
    var t := NatToString(2) + "ac";
    assert t == "2ac";
  }

  lemma LandSizeOneHectare()
    ensures ParseLandSize("1ha") == Some(10000.0)
  {
    LandSizeHectares(1);
    assert NatToString(1) == "1";
    var t := NatToString(1) + "ha";
    assert t == "1ha";
  }

  /** A unit spelled out is not a suffix the parser knows: "2 acres" is read
      as 2 square metres. */
  lemma LandSizeAcresSpelledOut()
    ensures ParseLandSize("2 acres") == Some(2.0)
  {
    var ds := NatToString(2);
    var t := ds + " acres";
    assert ds == "2";
    assert t == "2 acres";
    assert IsNumeral(ds);
    CanonNumberWithUnit(ds, " acres");
    assert t[|t| - 1] == 's';
    assert !EndsWith(t, "ac") && !EndsWith(t, "ha");
    DigitsOfNumberWithUnit(ds, " acres");
    ParseNatToString(2);
  }
}
