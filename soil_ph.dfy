/** The soil-pH extraction of `query_soilgrids_ph`: three probes of the
    SoilGrids reply in a fixed order, then the scale and range check. */
module SoilPh {
  import opened Wrappers
  import opened Text
  import opened Json
  import opened Rounding

  /** What a probe makes of the reply: a value, nothing (Python None), or an
      exception, which ends the whole query with None. */
  datatype Probe = Found(v: Json) | Absent | Raised

  /** Python `key in container`: dict keys, list elements, or a substring of a
      string; None when Python raises a TypeError. */
  function Member(container: Json, key: string): (r: Option<bool>)
    ensures r.None? <==> !(container.Obj? || container.Arr? || container.Str?)
  {
    match container
    case Obj(fields) => Some(key in Keys(fields))
    case Arr(items) => Some(Str(key) in items)
    case Str(s) => Some(Contains(s, key))
    case _ => None
  }

  /** None as a found value means "not found". */
  function FoundUnlessNull(v: Json): Probe {
    if v.Null? then Absent else Found(v)
  }

  /** First probe, `props["phh2o"]["mean"]` when `props["phh2o"]` is a dict
      holding "mean". Indexing a list or a string by a key raises. */
  function ProbeMean(props: Json): Probe {
    match Member(props, "phh2o")
    case None => Raised
    case Some(present) =>
      if !present then Absent
      else if !props.Obj? then Raised
      else
        var info := Lookup(props.fields, "phh2o").GetOr(Null);
        if info.Obj? && "mean" in Keys(info.fields)
        then FoundUnlessNull(Lookup(info.fields, "mean").GetOr(Null))
        else Absent
  }

  /** Second probe, `props.get("PHIHOX", {}).get("phh2o_mean")`, tried when
      "PHIHOX" is in `props`; `.get` on anything but a dict raises. */
  function ProbePhihox(props: Json): Probe {
    match Member(props, "PHIHOX")
    case None => Raised
    case Some(present) =>
      if !present then Absent
      else if !props.Obj? then Raised
      else
        var legacy := Get(props.fields, "PHIHOX", Obj([]));
        if legacy.Obj? then FoundUnlessNull(Get(legacy.fields, "phh2o_mean", Null))
        else Raised
  }

  /** A key that `search_for_ph` accepts: "ph" occurs in its lower-cased form. */
  predicate IsPhKey(k: string) {
    Contains(Lower(k), "ph")
  }

  /** `search_for_ph`, the value it returns: the first numeric value under a pH
      key in depth-first order, where a dict entry is tested before the
      search descends into its value. */
  function FirstPh(j: Json): Option<Json>
    decreases j
  {
    match j
    case Obj(fields) => FirstPhFields(j, 0)
    case Arr(items) => FirstPhItems(j, 0)
    case _ => None
  }

  /** The search over the entries of the dict `j` from index `i` on. */
  function FirstPhFields(j: Json, i: nat): Option<Json>
    requires j.Obj?
    decreases j, |j.fields| - i
  {
    if i >= |j.fields| then None
    else
      var (k, v) := j.fields[i];
      if IsPhKey(k) && IsNumeric(v) then Some(v)
      else
        match FirstPh(v)
        case Some(found) => Some(found)
        case None => FirstPhFields(j, i + 1)
  }

  /** The search over the elements of the list `j` from index `i` on. */
  function FirstPhItems(j: Json, i: nat): Option<Json>
    requires j.Arr?
    decreases j, |j.items| - i
  {
    if i >= |j.items| then None
    else
      match FirstPh(j.items[i])
      case Some(found) => Some(found)
      case None => FirstPhItems(j, i + 1)
  }

  /** Every value under a pH key with a numeric value, in depth-first order:
      the reference the search is measured against. */
  function PhCandidates(j: Json): seq<Json>
    decreases j
  {
    match j
    case Obj(fields) => FieldCandidates(j, 0)
    case Arr(items) => ItemCandidates(j, 0)
    case _ => []
  }

  function FieldCandidates(j: Json, i: nat): seq<Json>
    requires j.Obj?
    decreases j, |j.fields| - i
  {
    if i >= |j.fields| then []
    else
      var (k, v) := j.fields[i];
      (if IsPhKey(k) && IsNumeric(v) then [v] else []) + PhCandidates(v) + FieldCandidates(j, i + 1)
  }

  function ItemCandidates(j: Json, i: nat): seq<Json>
    requires j.Arr?
    decreases j, |j.items| - i
  {
    if i >= |j.items| then []
    else PhCandidates(j.items[i]) + ItemCandidates(j, i + 1)
  }

  /** The first element of a sequence, if any. */
  function Head(s: seq<Json>): Option<Json> {
    if s == [] then None else Some(s[0])
  }

  lemma HeadAppend(a: seq<Json>, b: seq<Json>)
    ensures Head(a + b) == if a == [] then Head(b) else Head(a)
  {
    if a == [] {
      assert a + b == b;
    } else {
      assert (a + b)[0] == a[0];
    }
  }

  /** The search returns the first of all candidates, and nothing exactly
      when there is no candidate. */
  lemma {:induction false} FirstPhIsFirstCandidate(j: Json)
    ensures FirstPh(j) == Head(PhCandidates(j))
    decreases j
  {
    match j
    case Obj(_) => FieldsFirstCandidate(j, 0);
    case Arr(_) => ItemsFirstCandidate(j, 0);
    case _ =>
  }

  lemma {:induction false} FieldsFirstCandidate(j: Json, i: nat)
    requires j.Obj?
    ensures FirstPhFields(j, i) == Head(FieldCandidates(j, i))
    decreases j, |j.fields| - i
  {
    if i < |j.fields| {
      var (k, v) := j.fields[i];
      var own := if IsPhKey(k) && IsNumeric(v) then [v] else [];
      FirstPhIsFirstCandidate(v);
      FieldsFirstCandidate(j, i + 1);
      assert FieldCandidates(j, i) == own + (PhCandidates(v) + FieldCandidates(j, i + 1));
      HeadAppend(own, PhCandidates(v) + FieldCandidates(j, i + 1));
      HeadAppend(PhCandidates(v), FieldCandidates(j, i + 1));
    }
  }

  lemma {:induction false} ItemsFirstCandidate(j: Json, i: nat)
    requires j.Arr?
    ensures FirstPhItems(j, i) == Head(ItemCandidates(j, i))
    decreases j, |j.items| - i
  {
    if i < |j.items| {
      FirstPhIsFirstCandidate(j.items[i]);
      ItemsFirstCandidate(j, i + 1);
      HeadAppend(PhCandidates(j.items[i]), ItemCandidates(j, i + 1));
    }
  }

  /** Every candidate is a number (or a bool, which Python counts as one). */
  lemma {:induction false} CandidatesNumeric(j: Json)
    ensures forall c :: c in PhCandidates(j) ==> IsNumeric(c)
    decreases j
  {
    match j
    case Obj(_) => FieldCandidatesNumeric(j, 0);
    case Arr(_) => ItemCandidatesNumeric(j, 0);
    case _ =>
  }

  lemma {:induction false} FieldCandidatesNumeric(j: Json, i: nat)
    requires j.Obj?
    ensures forall c :: c in FieldCandidates(j, i) ==> IsNumeric(c)
    decreases j, |j.fields| - i
  {
    if i < |j.fields| {
      CandidatesNumeric(j.fields[i].1);
      FieldCandidatesNumeric(j, i + 1);
    }
  }

  lemma {:induction false} ItemCandidatesNumeric(j: Json, i: nat)
    requires j.Arr?
    ensures forall c :: c in ItemCandidates(j, i) ==> IsNumeric(c)
    decreases j, |j.items| - i
  {
    if i < |j.items| {
      CandidatesNumeric(j.items[i]);
      ItemCandidatesNumeric(j, i + 1);
    }
  }

  /** What the search returns is a number. */
  lemma FirstPhNumeric(j: Json)
    ensures FirstPh(j).Some? ==> IsNumeric(FirstPh(j).value)
  {
    FirstPhIsFirstCandidate(j);
    CandidatesNumeric(j);
  }

  /** `search_for_ph`, as the source writes it: loops over the entries or the
      elements, recursing into each and returning from inside the loop. */
  method SearchForPh(obj: Json) returns (found: Option<Json>)
    ensures found == FirstPh(obj)
    decreases obj
  {
    match obj {
      case Obj(fields) =>
        var i := 0;
        while i < |fields|
          invariant 0 <= i <= |fields|
          invariant FirstPh(obj) == FirstPhFields(obj, i)
        {
          var (k, v) := fields[i];
          if IsPhKey(k) && IsNumeric(v) {
            return Some(v);
          }
          found := SearchForPh(v);
          if found.Some? {
            return found;
          }
          i := i + 1;
        }
        return None;
      case Arr(items) =>
        var i := 0;
        while i < |items|
          invariant 0 <= i <= |items|
          invariant FirstPh(obj) == FirstPhItems(obj, i)
        {
          found := SearchForPh(items[i]);
          if found.Some? {
            return found;
          }
          i := i + 1;
        }
        return None;
      case _ =>
        return None;
    }
  }

  /** The raw pH value of a SoilGrids reply body, before it is read as a
      number: `properties.phh2o.mean`, else `properties.PHIHOX.phh2o_mean`,
      else the search over `properties`. A body that is not a dict raises. */
  function RawPh(body: Json): Probe {
    if !body.Obj? then Raised
    else
      var props := Get(body.fields, "properties", Obj([]));
      match ProbeMean(props)
      case Found(v) => Found(v)
      case Raised => Raised
      case Absent =>
        match ProbePhihox(props)
        case Found(v) => Found(v)
        case Raised => Raised
        case Absent =>
          match FirstPh(props)
          case Some(v) => Found(v)
          case None => Absent
  }

  /** A value above 14 is taken to be pH times ten and divided once; the
      result is kept, to two decimals, only strictly between 0 and 14. */
  function ScalePh(p: real): Option<real> {
    var q := if p > 14.0 then p / 10.0 else p;
    if 0.0 < q < 14.0 then Some(Round2(q)) else None
  }

  /** `query_soilgrids_ph` on the reply body; None stands for a failed
      request or a reply that is not JSON. */
  function QuerySoilgridsPh(body: Option<Json>): Option<real> {
    if body.None? then None
    else
      match RawPh(body.value)
      case Found(v) =>
        (match FloatOf(v)
         case Some(p) => ScalePh(p)
         case None => None)
      case _ => None
  }

  /** The scale and range check, as an if-and-only-if: a result exists exactly
      when the (once divided) value lies strictly between 0 and 14, and it is
      that value rounded to two decimals. */
  lemma ScalePhSpec(p: real)
    ensures ScalePh(p).Some? <==> (0.0 < p < 14.0 || 14.0 < p < 140.0)
    ensures ScalePh(p).Some? ==> ScalePh(p).value == Round2(if p > 14.0 then p / 10.0 else p)
  {
  }

  /** An accepted pH lies between 0 and 14, and no further than half a
      hundredth from the value it was read from. */
  lemma ScalePhBounds(p: real)
    ensures ScalePh(p).Some? ==> 0.0 <= ScalePh(p).value <= 14.0
    ensures ScalePh(p).Some? && p < 14.0 ==> p - 0.005 <= ScalePh(p).value <= p + 0.005
  {
    var q := if p > 14.0 then p / 10.0 else p;
    if 0.0 < q < 14.0 {
      Round2Within(q, 0, 1400);
      Round2Near(q);
    }
  }

  lemma ScalePhExamples()
    ensures ScalePh(65.0) == Some(6.5)
    ensures ScalePh(15.0) == Some(1.5)
    ensures ScalePh(6.5) == Some(6.5)
    ensures ScalePh(14.0) == None && ScalePh(150.0) == None && ScalePh(0.0) == None
  {
    Round2OfHundredths(650);
    Round2OfHundredths(150);
  }

  /** Whatever the reply, a pH the query returns lies between 0 and 14. */
  lemma QueryInRange(body: Option<Json>)
    ensures QuerySoilgridsPh(body).Some? ==> 0.0 <= QuerySoilgridsPh(body).value <= 14.0
  {
    if body.Some? && RawPh(body.value).Found? && FloatOf(RawPh(body.value).v).Some? {
      ScalePhBounds(FloatOf(RawPh(body.value).v).value);
    }
  }

  /** Only the body's "properties" entry matters. */
  lemma RawPhOnlyProperties(a: Json, b: Json)
    requires a.Obj? && b.Obj?
    requires Get(a.fields, "properties", Obj([])) == Get(b.fields, "properties", Obj([]))
    ensures RawPh(a) == RawPh(b)
  {
  }

  /** The first probe decides whenever it finds a value or raises. */
  lemma MeanDecides(body: Json)
    requires body.Obj?
    requires !ProbeMean(Get(body.fields, "properties", Obj([]))).Absent?
    ensures RawPh(body) == ProbeMean(Get(body.fields, "properties", Obj([])))
  {
  }

  /** The second probe is consulted only when the first finds nothing. */
  lemma PhihoxDecides(body: Json)
    requires body.Obj?
    requires ProbeMean(Get(body.fields, "properties", Obj([]))).Absent?
    requires !ProbePhihox(Get(body.fields, "properties", Obj([]))).Absent?
    ensures RawPh(body) == ProbePhihox(Get(body.fields, "properties", Obj([])))
  {
  }

  /** The search runs only when both named probes find nothing. */
  lemma SearchDecides(body: Json)
    requires body.Obj?
    requires ProbeMean(Get(body.fields, "properties", Obj([]))).Absent?
    requires ProbePhihox(Get(body.fields, "properties", Obj([]))).Absent?
    ensures var found := FirstPh(Get(body.fields, "properties", Obj([])));
      RawPh(body) == if found.Some? then Found(found.value) else Absent
  {
  }
}
