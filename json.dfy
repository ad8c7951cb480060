/** Decoded JSON values, as Python's `json.loads` hands them to the advisor,
    with the dictionary operations and conversions the advisor applies. */
module Json {
  import opened Wrappers
  import opened Text

  /** `Null` is Python's None; an `Obj` lists a dict's entries in insertion
      order (a Python dict never holds a key twice). */
  datatype Json =
    | Null
    | Bool(b: bool)
    | Num(n: real)
    | Str(s: string)
    | Arr(items: seq<Json>)
    | Obj(fields: seq<(string, Json)>)

  type Dict = seq<(string, Json)>

  /** The keys of a dict, in order. */
  function Keys(d: Dict): seq<string> {
    seq(|d|, i requires 0 <= i < |d| => d[i].0)
  }

  /** `d[key]` when `key in d`: the value of the first entry with that key. */
  function Lookup(d: Dict, key: string): Option<Json> {
    if d == [] then None
    else if d[0].0 == key then Some(d[0].1)
    else Lookup(d[1..], key)
  }

  /** A lookup finds something exactly when the key is present, and what it
      finds is the value of the first entry with that key. */
  lemma {:induction false} LookupSpec(d: Dict, key: string)
    ensures Lookup(d, key).None? <==> key !in Keys(d)
    ensures Lookup(d, key).Some? ==> exists i :: FirstEntry(d, key, i) && Lookup(d, key).value == d[i].1
  {
    if d != [] {
      LookupSpec(d[1..], key);
      assert Keys(d) == [d[0].0] + Keys(d[1..]);
      if d[0].0 == key {
        assert FirstEntry(d, key, 0);
      } else if Lookup(d, key).Some? {
        var i :| FirstEntry(d[1..], key, i) && Lookup(d, key).value == d[1..][i].1;
        assert d[i + 1] == d[1..][i];
        assert forall j :: 1 <= j < i + 1 ==> d[j] == d[1..][j - 1];
        assert FirstEntry(d, key, i + 1);
      }
    }
  }

  /** Entry `i` is the first with the key. */
  predicate FirstEntry(d: Dict, key: string, i: int) {
    0 <= i < |d| && d[i].0 == key && forall j :: 0 <= j < i ==> d[j].0 != key
  }

  /** The entry at `i` decides a lookup when no earlier entry has the key. */
  lemma {:induction false} LookupAt(d: Dict, i: nat, key: string)
    requires i < |d| && d[i].0 == key
    requires forall j :: 0 <= j < i ==> d[j].0 != key
    ensures Lookup(d, key) == Some(d[i].1)
  {
    if i > 0 {
      assert forall j :: 0 <= j < i - 1 ==> d[1..][j] == d[j + 1];
      LookupAt(d[1..], i - 1, key);
    }
  }

  /** Python `d.get(key, default)`. */
  function Get(d: Dict, key: string, default: Json): Json {
    Lookup(d, key).GetOr(default)
  }

  /** Python `isinstance(v, (int, float))`; `bool` is a subclass of `int`. */
  predicate IsNumeric(j: Json) {
    j.Bool? || j.Num?
  }

  /** Python `float(v)`; None stands for the exception it raises. */
  function FloatOf(j: Json): (r: Option<real>)
    ensures IsNumeric(j) ==> r.Some?
    ensures j.Null? || j.Arr? || j.Obj? ==> r.None?
  {
    match j
    case Null => None
    case Bool(b) => Some(if b then 1.0 else 0.0)
    case Num(n) => Some(n)
    case Str(s) => ParseFloat(s)
    case Arr(_) => None
    case Obj(_) => None
  }

  /** How Python renders values the model does not spell out: a float
      (`repr`), and a list or dict (`str`). */
  datatype Formatter = Formatter(number: real -> string, container: Json -> string)

  /** Python `str(v)`, as an f-string interpolates `v`. */
  function Display(j: Json, fmt: Formatter): string {
    match j
    case Null => "None"
    case Bool(b) => if b then "True" else "False"
    case Num(n) => fmt.number(n)
    case Str(s) => s
    case _ => fmt.container(j)
  }
}
