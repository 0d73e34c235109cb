/** The JSON values an estimate record carries, and the three Python
    operations that `generate_pdf.py` applies to them: `str(v)`, truthiness, and
    `dict.get(key, default)`. */
module Json {
  import opened Wrappers
  import opened Money

  /** A JSON scalar as loaded by `json.load`. `Other` stands for a float, a list
      or a dict: its `str()` is `repr` (which always holds '.', 'e', "inf",
      "nan", '[' or '{', so `int` never accepts it) and its truthiness is `truthy`. */
  datatype Value =
    | Str(s: string)
    | Int(n: int)
    | Bool(b: bool)
    | Null
    | Other(repr: string, truthy: bool)

  /** A line item, or any other JSON object: a dictionary from keys to values. */
  type Item = map<string, Value>

  /** `str(v)`. */
  function Text(v: Value): string
  {
    match v
    case Str(s) => s
    case Int(n) => Decimal(n)
    case Bool(b) => if b then "True" else "False"
    case Null => "None"
    case Other(repr, _) => repr
  }

  /** Python truthiness: `bool(v)`. */
  predicate Truthy(v: Value)
  {
    match v
    case Str(s) => s != ""
    case Int(n) => n != 0
    case Bool(b) => b
    case Null => false
    case Other(_, t) => t
  }

  /** `d.get(key, default)`. */
  function Get(d: map<string, Value>, key: string, default: Value): Value
  {
    if key in d then d[key] else default
  }

  /** `int(str(v))`, or `None` where Python raises `ValueError`. */
  function IntOf(v: Value): (r: Option<int>)
    ensures v.Int? ==> r == Some(v.n)
    ensures v.Str? ==> r == ParseInt(v.s)
    ensures v.Bool? || v.Null? || v.Other? ==> r == None
  {
    match v
    case Int(n) => DecimalRoundTrip(n); ParseInt(Text(v))
    case Other(_, _) => None
    case _ => ParseInt(Text(v))
  }

  /** `int(str(v).replace(',', ''))`, or `None` where Python raises `ValueError`. */
  function AmountOf(v: Value): (r: Option<int>)
    ensures v.Int? ==> r == Some(v.n)
    ensures v.Str? ==> r == ParseAmount(v.s)
    ensures v.Bool? || v.Null? || v.Other? ==> r == None
  {
    match v
    case Int(n) => DecimalRoundTrip(n); ParseAmount(Text(v))
    case Other(_, _) => None
    case _ => ParseAmount(Text(v))
  }
}
