/** Front-matter values as the YAML loader hands them to the linter, and the
    few JavaScript conversions the linter applies to them. */
module JsValues {
  import opened Results
  import opened Strings

  /** A YAML value seen from JavaScript. Numbers are integers here. */
  datatype Value =
    | Null
    | Bool(b: bool)
    | Num(n: int)
    | Str(s: string)
    | Arr(items: seq<Value>)
    | Obj(fields: map<string, Value>)

  /** The parsed front-matter block: top-level keys to values. */
  type FrontMatter = map<string, Value>

  /** JavaScript truthiness. Exactly `null`, `false`, `0` and `""` are falsy;
      arrays and objects are truthy even when empty. */
  predicate Truthy(v: Value)
    ensures !Truthy(v) <==> v == Null || v == Bool(false) || v == Num(0) || v == Str("")
    ensures v.Arr? || v.Obj? ==> Truthy(v)
  {
    match v
    case Null => false
    case Bool(b) => b
    case Num(n) => n != 0
    case Str(s) => s != ""
    case Arr(_) => true
    case Obj(_) => true
  }

  /** `frontMatter[key]` used as a condition: an absent key reads as
      `undefined`, which is falsy too. */
  predicate Present(fm: FrontMatter, key: string) {
    key in fm && Truthy(fm[key])
  }

  /** The digit character for `d`. */
  function DigitChar(d: nat): (c: char)
    requires d < 10
    ensures '0' <= c <= '9' && c as int - '0' as int == d
  {
    "0123456789"[d]
  }

  predicate IsDigits(s: string) {
    forall i :: 0 <= i < |s| ==> '0' <= s[i] <= '9'
  }

  /** Decimal notation of a natural number, without leading zeros. */
  function NatToString(n: nat): (s: string)
    ensures |s| >= 1 && IsDigits(s)
    ensures |s| > 1 ==> s[0] != '0'
    decreases n
  {
    if n < 10 then [DigitChar(n)]
    else NatToString(n / 10) + [DigitChar(n % 10)]
  }

  /** The number a string of decimal digits denotes. */
  function DigitsValue(s: string): nat
    requires IsDigits(s)
    decreases |s|
  {
    if s == [] then 0
    else DigitsValue(s[..|s| - 1]) * 10 + (s[|s| - 1] as int - '0' as int)
  }

  /** Reading the decimal notation back gives the number. */
  lemma {:induction false} NatToStringRoundTrip(n: nat)
    ensures DigitsValue(NatToString(n)) == n
    decreases n
  {
    if n >= 10 {
      NatToStringRoundTrip(n / 10);
      var s := NatToString(n);
      assert s[..|s| - 1] == NatToString(n / 10);
    }
  }

  /** `String(n)` for an integer (no exponent notation; see README). */
  function IntToString(n: int): string {
    if n < 0 then "-" + NatToString(-n) else NatToString(n)
  }

  /** Reads an optionally negative decimal numeral. */
  function IntValue(s: string): int
    requires |s| >= 1 && (IsDigits(s) || (s[0] == '-' && IsDigits(s[1..])))
  {
    if s[0] == '-' then -(DigitsValue(s[1..]) as int) else DigitsValue(s)
  }

  /** `String(n)` is a faithful rendering: it reads back as `n`. */
  lemma IntToStringRoundTrip(n: int)
    ensures var s := IntToString(n);
            |s| >= 1 && (IsDigits(s) || (s[0] == '-' && IsDigits(s[1..]))) && IntValue(s) == n
  {
    if n < 0 {
      NatToStringRoundTrip(-n);
      assert IntToString(n)[1..] == NatToString(-n);
    } else {
      NatToStringRoundTrip(n);
    }
  }

  /** `String(v)`, as a template literal `${v}` applies it. An array
      converts as `items.join(",")`; an object without its own `toString`
      renders as "[object Object]". */
  function Display(v: Value): (r: string)
    ensures v.Str? ==> r == v.s
    ensures v.Num? ==> |r| >= 1 && (IsDigits(r) || (r[0] == '-' && IsDigits(r[1..]))) && IntValue(r) == v.n
    ensures v.Arr? && |v.items| == 0 ==> r == ""
    ensures v.Arr? && |v.items| == 1 ==> r == (if v.items[0].Null? then "" else Display(v.items[0]))
    decreases v, 3
  {
    match v
    case Null => "null"
    case Bool(b) => if b then "true" else "false"
    case Num(n) =>
      IntToStringRoundTrip(n);
      IntToString(n)
    case Str(s) => s
    case Arr(items) =>
      assert |items| == 1 ==> ArrayJoin(items, ",") == ElementString(items[0]);
      ArrayJoin(items, ",")
    case Obj(_) => "[object Object]"
  }

  /** How `Array.prototype.join` renders one element: `null` becomes "". */
  function ElementString(v: Value): string
    decreases v, 4
  {
    if v.Null? then "" else Display(v)
  }

  /** `items.join(sep)`. */
  function ArrayJoin(items: seq<Value>, sep: string): string
    decreases Arr(items), 2
  {
    Join(seq(|items|, i requires 0 <= i < |items| => ElementString(items[i])), sep)
  }

  /** `array.includes(v)` on an array of strings: SameValueZero equality, so
      only a string with the same characters matches. */
  predicate Includes(list: seq<string>, v: Value)
    ensures Includes(list, v) <==> exists i :: 0 <= i < |list| && v == Str(list[i])
  {
    v.Str? && v.s in list
  }

  /** The numeric `.length` property of a value, if it has one: the code-point
      count of a string, the element count of an array, an object's own
      numeric `length` entry. Numbers and booleans have none. */
  function LengthOf(v: Value): (r: Option<int>)
    ensures v.Str? ==> r == Some(|v.s|)
    ensures v.Arr? ==> r == Some(|v.items|)
    ensures v.Null? || v.Bool? || v.Num? ==> r == None
    ensures r.Some? && r.value > 0 ==> Truthy(v)
  {
    match v
    case Str(s) => Some(|s|)
    case Arr(items) => Some(|items|)
    case Obj(m) => if "length" in m && m["length"].Num? then Some(m["length"].n) else None
    case _ => None
  }
}
