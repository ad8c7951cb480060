/** `geocode_region` and `get_region_ph_and_rainfall`: the region gate, and
    the annual rainfall summed from the climate reply's monthly values. The
    web services themselves are parameters. */
module Climate {
  import opened Wrappers
  import opened Text
  import opened Json
  import opened Rounding
  import opened SoilPh

  datatype Coords = Coords(lat: real, lon: real)

  /** What the three web services answer. `geocode` gets the stripped region
      name; `soil` and `climate` give the reply body, or None when the
      request fails or the reply is not JSON (for `climate`, also when the
      status is not 200). */
  datatype Services = Services(
    geocode: string -> Option<Coords>,
    soil: Coords -> Option<Json>,
    climate: Coords -> Option<Json>)

  /** `geocode_region`: a blank name is not looked up. */
  function GeocodeRegion(region: string, services: Services): Option<Coords> {
    var q := Strip(region);
    if q == [] then None else services.geocode(q)
  }

  lemma GeocodeBlank(region: string, services: Services)
    requires Strip(region) == []
    ensures GeocodeRegion(region, services) == None
  {
  }

  /** The values `sum(float(x) for x in monthly[:12])` iterates over: a list's
      first twelve elements, or a string's first twelve characters. */
  function Months(monthly: Json): (r: Option<seq<Json>>)
    ensures r.Some? ==> |r.value| == 12
  {
    match monthly
    case Arr(items) => if |items| >= 12 then Some(items[..12]) else None
    case Str(s) => if |s| >= 12 then Some(seq(12, i requires 0 <= i < 12 => Str([s[i]]))) else None
    case _ => None
  }

  /** `sum(float(x) for x in xs)`, None when some `float(x)` raises. */
  function SumFloats(xs: seq<Json>): Option<real> {
    if xs == [] then Some(0.0)
    else
      match FloatOf(xs[0])
      case None => None
      case Some(a) =>
        match SumFloats(xs[1..])
        case None => None
        case Some(b) => Some(a + b)
  }

  /** The annual rainfall of a climate reply: `monthly.precipitation_sum`
      with at least twelve values, the first twelve summed and rounded to one
      decimal. Anything that is not a dict where a dict is read, or a value
      that is not a number, gives None. */
  function AnnualRainfall(reply: Json): Option<real> {
    if !reply.Obj? then None
    else
      var monthly := Get(reply.fields, "monthly", Obj([]));
      if !monthly.Obj? then None
      else
        match Months(Get(monthly.fields, "precipitation_sum", Arr([])))
        case None => None
        case Some(xs) =>
          match SumFloats(xs)
          case None => None
          case Some(annual) => Some(Round1(annual))
  }

  /** `get_region_ph_and_rainfall`: nothing without coordinates; otherwise
      the soil query's pH and the climate reply's rainfall, independently. */
  function RegionPhAndRainfall(region: string, services: Services): (r: (Option<real>, Option<real>)) {
    match GeocodeRegion(region, services)
    case None => (None, None)
    case Some(c) =>
      (QuerySoilgridsPh(services.soil(c)),
       match services.climate(c) case None => None case Some(reply) => AnnualRainfall(reply))
  }

  /** A sum exists exactly when every value reads as a number. */
  lemma {:induction false} SumFloatsDefined(xs: seq<Json>)
    ensures SumFloats(xs).Some? <==> forall i :: 0 <= i < |xs| ==> FloatOf(xs[i]).Some?
  {
    if xs != [] {
      SumFloatsDefined(xs[1..]);
      assert forall i :: 1 <= i < |xs| ==> xs[i] == xs[1..][i - 1];
    }
  }

  /** Sums of numbers split over concatenation. */
  lemma {:induction false} SumFloatsAppend(a: seq<Json>, b: seq<Json>)
    requires SumFloats(a).Some? && SumFloats(b).Some?
    ensures SumFloats(a + b) == Some(SumFloats(a).value + SumFloats(b).value)
  {
    if a == [] {
      assert a + b == b;
    } else {
      assert (a + b)[0] == a[0] && (a + b)[1..] == a[1..] + b;
      SumFloatsAppend(a[1..], b);
    }
  }

  /** Non-negative monthly values give a non-negative year. */
  lemma {:induction false} SumFloatsNonNegative(xs: seq<Json>)
    requires forall i :: 0 <= i < |xs| ==> xs[i].Num? && xs[i].n >= 0.0
    ensures SumFloats(xs).Some? && SumFloats(xs).value >= 0.0
  {
    if xs != [] {
      SumFloatsNonNegative(xs[1..]);
    }
  }

  /** Fewer than twelve monthly values, as a list or as a string, give no
      rainfall, whatever else the reply holds. */
  lemma TooFewMonths(reply: Json, monthly: Dict, precipitation: Json)
    requires reply.Obj? && Get(reply.fields, "monthly", Obj([])) == Obj(monthly)
    requires Lookup(monthly, "precipitation_sum") == Some(precipitation)
    requires (precipitation.Arr? && |precipitation.items| < 12) || (precipitation.Str? && |precipitation.s| < 12)
    ensures AnnualRainfall(reply) == None
  {
  }

  /** Of the whole climate reply only its `monthly` member matters. */
  lemma AnnualRainfallOnlyMonthly(fields: Dict)
    ensures AnnualRainfall(Obj(fields)) == AnnualRainfall(Obj([("monthly", Get(fields, "monthly", Obj([])))]))
  {
  }

  /** Only the first twelve monthly values count. */
  lemma ExtraMonthsIgnored(values: seq<Json>, extra: seq<Json>)
    requires |values| >= 12
    ensures Months(Arr(values + extra)) == Months(Arr(values))
  {
    assert (values + extra)[..12] == values[..12];
  }

  /** With twelve monthly numbers, the rainfall is their sum to one decimal. */
  lemma TwelveMonths(reply: Json, monthly: Dict, values: seq<Json>)
    requires reply.Obj? && Get(reply.fields, "monthly", Obj([])) == Obj(monthly)
    requires Lookup(monthly, "precipitation_sum") == Some(Arr(values)) && |values| == 12
    requires forall i :: 0 <= i < 12 ==> values[i].Num?
    ensures SumFloats(values).Some?
    ensures AnnualRainfall(reply) == Some(Round1(SumFloats(values).value))
  {
    SumFloatsDefined(values);
    assert values[..12] == values;
  }

  /** Rounding to one decimal keeps a dry year's rainfall non-negative. */
  lemma AnnualRainfallNonNegative(reply: Json, monthly: Dict, values: seq<Json>)
    requires reply.Obj? && Get(reply.fields, "monthly", Obj([])) == Obj(monthly)
    requires Lookup(monthly, "precipitation_sum") == Some(Arr(values)) && |values| >= 12
    requires forall i :: 0 <= i < |values| ==> values[i].Num? && values[i].n >= 0.0
    ensures AnnualRainfall(reply).Some?
    ensures AnnualRainfall(reply).value >= 0.0
  {
    var xs := values[..12];
    SumFloatsNonNegative(xs);
    var annual := SumFloats(xs).value;
    RoundHalfEvenMonotone(0.0, annual * 10.0);
    RoundHalfEvenOfInt(0);
  }

  /** Without coordinates there is neither pH nor rainfall. */
  lemma NoCoordsNothing(region: string, services: Services)
    requires GeocodeRegion(region, services).None?
    ensures RegionPhAndRainfall(region, services) == (None, None)
  {
  }

  /** A pH the region lookup returns is always between 0 and 14. */
  lemma RegionPhInRange(region: string, services: Services)
    ensures var ph := RegionPhAndRainfall(region, services).0;
      ph.Some? ==> 0.0 <= ph.value <= 14.0
  {
    match GeocodeRegion(region, services)
    case None =>
    case Some(c) => QueryInRange(services.soil(c));
  }
}
