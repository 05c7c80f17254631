/**
 * The values found in the command's configuration array, with the three PHP
 * operations the supervisor applies to them: `empty()`, `isset()` on an
 * array key, and conversion to string (the `.` operator).
 */
module PhpValue {
  import opened IntCast

  datatype Option<+T> = None | Some(value: T)

  /**
   * A PHP value as it appears in the configuration. Arrays are keyed by
   * strings (PHP stores integer keys as their decimal text); floats are not
   * part of this model.
   */
  datatype Value =
    | Null
    | Bool(b: bool)
    | Int(i: int)
    | Str(s: string)
    | Arr(entries: map<string, Value>)

  /** The values PHP's `empty()` accepts. */
  const FALSY: set<Value> := {Null, Bool(false), Int(0), Str(""), Str("0"), Arr(map[])}

  /** PHP's `empty()`: null, false, 0, "", "0" and the empty array. */
  predicate Empty(v: Value) {
    match v
    case Null => true
    case Bool(b) => !b
    case Int(i) => i == 0
    case Str(s) => s == "" || s == "0"
    case Arr(m) => m == map[]
  }

  /** `empty()` accepts exactly the falsy values listed in FALSY. */
  lemma EmptyIsFalsy(v: Value)
    ensures Empty(v) <==> v in FALSY
  {
  }

  /** `$config[$key]`: a missing key reads as null. */
  function Lookup(config: map<string, Value>, key: string): (v: Value)
    ensures key !in config ==> v == Null
    ensures key in config ==> v == config[key]
  {
    if key in config then config[key] else Null
  }

  /** `isset($config[$key])`: the key is present and not null. */
  predicate IsSet(config: map<string, Value>, key: string) {
    key in config && !config[key].Null?
  }

  /** The decimal text PHP gives an integer. */
  function IntText(i: int): (s: string)
    ensures s != []
    ensures CastToInt(s) == i
  {
    if i < 0 then
      CastOfNegativeDecimal(-i);
      "-" + Decimal(-i)
    else
      CastOfDecimal(i, []);
      assert Decimal(i) + [] == Decimal(i);
      Decimal(i)
  }

  /** PHP's conversion of a value to string, as `.` performs it. */
  function ToStr(v: Value): (s: string)
    ensures v.Int? ==> CastToInt(s) == v.i
    ensures !v.Arr? ==> (Empty(Str(s)) <==> Empty(v))
  {
    match v
    case Null => ""
    case Bool(b) => if b then "1" else ""
    case Int(i) => IntText(i)
    case Str(s) => s
    case Arr(_) => "Array"
  }
}
