/**
 * The scalar JSON values that can appear in the plugin's configuration
 * document, with the two Python operations the plugin applies to them:
 * truth testing (`if self.enabled:`) and `str()` inside an f-string.
 */
module JsonValue {

  datatype Value = Str(s: string) | Bool(b: bool) | Num(n: int) | Null

  /** The configuration document as `json.load` returns it for a JSON object. */
  type Config = map<string, Value>

  /** Python truthiness of a decoded JSON scalar. */
  predicate Truthy(v: Value) {
    match v
    case Str(s) => s != ""
    case Bool(b) => b
    case Num(n) => n != 0
    case Null => false
  }

  /** `dict.get(key, default)`. */
  function Lookup(cfg: Config, key: string, default: Value): (v: Value)
    ensures key in cfg ==> v == cfg[key]
    ensures key !in cfg ==> v == default
  {
    if key in cfg then cfg[key] else default
  }

  function DigitChar(d: nat): (c: char)
    requires d < 10
    ensures '0' <= c <= '9' && c as int - '0' as int == d
  {
    "0123456789"[d]
  }

  /** The number a string of decimal digits denotes. */
  function DecimalValue(r: string): nat
    requires forall i :: 0 <= i < |r| ==> '0' <= r[i] <= '9'
  {
    if |r| == 0 then 0
    else DecimalValue(r[..|r| - 1]) * 10 + (r[|r| - 1] as int - '0' as int)
  }

  /** Decimal digits of a natural number, most significant first, no leading zeros. */
  function Digits(n: nat): (r: string)
    ensures |r| >= 1
    ensures forall i :: 0 <= i < |r| ==> '0' <= r[i] <= '9'
    ensures DecimalValue(r) == n
    ensures n > 0 ==> r[0] != '0'
    decreases n
  {
    if n < 10 then [DigitChar(n)]
    else
      var r := Digits(n / 10) + [DigitChar(n % 10)];
      assert r[..|r| - 1] == Digits(n / 10);
      r
  }

  /** Python `str()` of the value, as an f-string renders it. */
  function Render(v: Value): (r: string)
    ensures v.Str? ==> r == v.s
    ensures v.Bool? ==> r == (if v.b then "True" else "False")
    ensures v.Null? ==> r == "None"
    ensures v.Num? && v.n >= 0 ==> r == Digits(v.n)
    ensures v.Num? && v.n < 0 ==> r == "-" + Digits(-v.n)
  {
    match v
    case Str(s) => s
    case Bool(b) => if b then "True" else "False"
    case Num(n) => if n < 0 then "-" + Digits(-n) else Digits(n)
    case Null => "None"
  }
}
