/** JavaScript values and the few built-in operations the application code relies on:
    truthiness, `||` and `??`, property reads with and without optional chaining,
    String(), Number(), `.trim()`, `.toLowerCase()`, `.join()`, `.map()` and Object.keys().
    Numbers are exact reals: floating-point rounding, NaN payloads, infinities and -0 are
    not represented (NaN only appears as the `None` of ToNumber). */
module Js {

  datatype Option<+T> = None | Some(value: T)

  /** What a JavaScript expression can throw, as far as this model distinguishes it. */
  datatype Error =
    | TypeError                 // reading a property of null/undefined, calling a missing method
    | SyntaxError               // JSON.parse rejected its input
    | Thrown(message: string)   // `throw new Error(message)`

  datatype Result<+T> = Ok(value: T) | Err(error: Error) {
    predicate IsFailure() { Err? }
    function PropagateFailure<U>(): Result<U>
      requires Err?
    {
      Err(error)
    }
    function Extract(): T
      requires Ok?
    {
      value
    }
  }

  /** A JSON-like JavaScript value. `Obj` maps own property names to values. */
  datatype Value =
    | Undefined
    | Null
    | Bool(b: bool)
    | Num(n: real)
    | Str(s: string)
    | Arr(items: seq<Value>)
    | Obj(fields: map<string, Value>)

  /** JavaScript truthiness: falsy values are undefined, null, false, 0 and "". */
  predicate Truthy(v: Value) {
    match v
    case Undefined => false
    case Null => false
    case Bool(b) => b
    case Num(n) => n != 0.0
    case Str(s) => s != ""
    case Arr(_) => true
    case Obj(_) => true
  }

  predicate Nullish(v: Value) {
    v.Undefined? || v.Null?
  }

  /** `x || d` */
  function Or(x: Value, d: Value): (r: Value)
    ensures Truthy(x) ==> r == x
    ensures !Truthy(x) ==> r == d
  {
    if Truthy(x) then x else d
  }

  /** `x ?? d` */
  function Coalesce(x: Value, d: Value): (r: Value)
    ensures !Nullish(x) ==> r == x
    ensures Nullish(x) ==> r == d
  {
    if Nullish(x) then d else x
  }

  /** `v?.k`: undefined when v is null or undefined or has no such property.
      The only built-in property modelled is `length` of arrays and strings. */
  function Get(v: Value, k: string): Value {
    match v
    case Obj(m) => if k in m then m[k] else Undefined
    case Arr(items) => if k == "length" then Num(|items| as real) else Undefined
    case Str(s) => if k == "length" then Num(|s| as real) else Undefined
    case _ => Undefined
  }

  /** The smaller of two integers, as `Math.min` on whole numbers. */
  function Min(a: int, b: int): int {
    if a <= b then a else b
  }

  /** `v.k`: a TypeError when v is null or undefined, otherwise as `v?.k`. */
  function Prop(v: Value, k: string): (r: Result<Value>)
    ensures r.Err? <==> Nullish(v)
    ensures r.Ok? ==> r.value == Get(v, k)
  {
    if Nullish(v) then Err(TypeError) else Ok(Get(v, k))
  }

  /** `v.p1.p2…` with plain property reads throughout. */
  function Path(v: Value, ks: seq<string>): Result<Value>
    decreases |ks|
  {
    if |ks| == 0 then Ok(v)
    else
      var w :- Prop(v, ks[0]);
      Path(w, ks[1..])
  }

  /** `v?.p1?.p2…` with optional chaining throughout. */
  function GetPath(v: Value, ks: seq<string>): Value
    decreases |ks|
  {
    if |ks| == 0 then v else GetPath(Get(v, ks[0]), ks[1..])
  }

  /** `v[i]` for a non-negative integer index. */
  function At(v: Value, i: nat): Value {
    match v
    case Arr(items) => if i < |items| then items[i] else Undefined
    case Str(s) => if i < |s| then Str([s[i]]) else Undefined
    case Obj(m) => var k := IntText(i); if k in m then m[k] else Undefined
    case _ => Undefined
  }

  /** `Object.keys(v).length` for a value that is not null or undefined. */
  function KeyCount(v: Value): nat {
    match v
    case Obj(m) => |m|
    case Arr(items) => |items|
    case Str(s) => |s|
    case _ => 0
  }

  /** `typeof v === 'number'` */
  predicate IsNumber(v: Value) {
    v.Num?
  }

  // ---------------------------------------------------------------- strings

  /** The characters JavaScript's `\s` and `.trim()` treat as white space
      (WhiteSpace and LineTerminator of ECMA-262). */
  predicate IsSpace(c: char) {
    || c == '\t' || c == '\n' || c == '\U{000B}' || c == '\U{000C}' || c == '\r' || c == ' '
    || c == '\U{00A0}' || c == '\U{1680}' || ('\U{2000}' <= c <= '\U{200A}')
    || c == '\U{2028}' || c == '\U{2029}' || c == '\U{202F}' || c == '\U{205F}'
    || c == '\U{3000}' || c == '\U{FEFF}'
  }

  function TrimStart(s: string): (r: string)
    ensures |r| <= |s| && r == s[|s| - |r|..]
    ensures r == [] || !IsSpace(r[0])
    ensures forall i :: 0 <= i < |s| - |r| ==> IsSpace(s[i])
  {
    if |s| > 0 && IsSpace(s[0]) then TrimStart(s[1..]) else s
  }

  function TrimEnd(s: string): (r: string)
    ensures |r| <= |s| && r == s[..|r|]
    ensures r == [] || !IsSpace(r[|r| - 1])
    ensures forall i :: |r| <= i < |s| ==> IsSpace(s[i])
  {
    if |s| > 0 && IsSpace(s[|s| - 1]) then TrimEnd(s[..|s| - 1]) else s
  }

  /** `s.trim()` */
  function Trim(s: string): string {
    TrimEnd(TrimStart(s))
  }

  /** `s.toLowerCase()` on the ASCII letters. */
  function ToLower(s: string): (r: string)
    ensures |r| == |s|
  {
    if |s| == 0 then ""
    else
      var c := s[0];
      [if 'A' <= c <= 'Z' then (c as int + 32) as char else c] + ToLower(s[1..])
  }

  /** `v.toLowerCase()`: only strings have the method. */
  function LowerCaseOf(v: Value): (r: Result<string>)
    ensures r.Ok? <==> v.Str?
  {
    if v.Str? then Ok(ToLower(v.s)) else Err(TypeError)
  }

  function DigitChar(d: nat): char
    requires d < 10
  {
    ('0' as int + d) as char
  }

  /** Decimal text of a natural number. */
  function NatText(n: nat): (r: string)
    ensures |r| > 0
  {
    if n < 10 then [DigitChar(n)] else NatText(n / 10) + [DigitChar(n % 10)]
  }

  /** Different numbers have different decimal texts. */
  lemma {:induction false} NatTextInjective(n: nat, m: nat)
    requires n != m
    ensures NatText(n) != NatText(m)
    decreases n
  {
    var a, b := NatText(n), NatText(m);
    if n < 10 && m < 10 {
      assert a[0] != b[0];
    } else if n < 10 {
      assert |NatText(m / 10)| > 0;
      assert |a| == 1 < |b|;
    } else if m < 10 {
      assert |NatText(n / 10)| > 0;
      assert |b| == 1 < |a|;
    } else if n % 10 != m % 10 {
      assert a[|a| - 1] == DigitChar(n % 10) && b[|b| - 1] == DigitChar(m % 10);
    } else {
      NatTextInjective(n / 10, m / 10);
      assert a[..|a| - 1] == NatText(n / 10);
      assert b[..|b| - 1] == NatText(m / 10);
    }
  }

  /** Decimal text of an integer, as String() writes it. */
  function IntText(i: int): string {
    if i < 0 then "-" + NatText(-i) else NatText(i)
  }

  /** Up to `count` decimal digits of a fraction 0 <= f < 1, with trailing zeros dropped. */
  function FractionDigits(f: real, count: nat): string
    requires 0.0 <= f < 1.0
    decreases count
  {
    if count == 0 || f == 0.0 then ""
    else
      var d := (f * 10.0).Floor;
      assert 0 <= d < 10;
      var rest := FractionDigits(f * 10.0 - d as real, count - 1);
      if d == 0 && rest == "" then "" else [DigitChar(d)] + rest
  }

  /** String() of a number: whole numbers exactly; other numbers with at most 17
      fraction digits (the precision of a double). */
  function NumberText(n: real): string {
    if n < 0.0 then "-" + UnsignedNumberText(-n) else UnsignedNumberText(n)
  }

  function UnsignedNumberText(n: real): string
    requires n >= 0.0
  {
    if n == n.Floor as real then NatText(n.Floor)
    else NatText(n.Floor) + "." + FractionDigits(n - n.Floor as real, 17)
  }

  /** String() of a whole number is its decimal text. */
  lemma NumberTextOfInt(k: int)
    ensures NumberText(k as real) == IntText(k)
  {
    if k < 0 {
      assert (-(k as real)) == (-k) as real;
      assert ((-k) as real).Floor == -k;
    } else {
      assert (k as real).Floor == k;
    }
  }

  /** String(v), which is also what a template literal `${v}` inserts. */
  function ToText(v: Value): string
    decreases v, 1
  {
    match v
    case Undefined => "undefined"
    case Null => "null"
    case Bool(b) => if b then "true" else "false"
    case Num(n) => NumberText(n)
    case Str(s) => s
    case Arr(items) => JoinText(items, ",")
    case Obj(_) => "[object Object]"
  }

  /** Array.prototype.join: null and undefined elements become "". */
  function JoinText(items: seq<Value>, sep: string): (r: string)
    ensures |items| == 0 ==> r == ""
    decreases items, 0
  {
    if |items| == 0 then ""
    else
      var first := if Nullish(items[0]) then "" else ToText(items[0]);
      if |items| == 1 then first else first + sep + JoinText(items[1..], sep)
  }

  /** `v.join(sep)`: only arrays have the method. */
  function Join(v: Value, sep: string): (r: Result<string>)
    ensures r.Ok? <==> v.Arr?
  {
    if v.Arr? then Ok(JoinText(v.items, sep)) else Err(TypeError)
  }

  /** A child React can render: no plain object anywhere inside it. */
  predicate Renderable(v: Value) {
    match v
    case Obj(_) => false
    case Arr(items) => forall i :: 0 <= i < |items| ==> Renderable(items[i])
    case _ => true
  }

  /** The text React renders for a child value: nothing for null, undefined and
      booleans, arrays element by element without separators; a plain object is
      refused with an error. */
  function ReactText(v: Value): (r: Result<string>)
    ensures v.Str? ==> r == Ok(v.s)
    ensures Nullish(v) || v.Bool? ==> r == Ok("")
    ensures v.Num? ==> r == Ok(NumberText(v.n))
    ensures r.Ok? <==> Renderable(v)
  {
    match v
    case Undefined => Ok("")
    case Null => Ok("")
    case Bool(_) => Ok("")
    case Num(n) => Ok(NumberText(n))
    case Str(s) => Ok(s)
    case Arr(items) => ReactTexts(items)
    case Obj(_) => Err(Thrown("Objects are not valid as a React child"))
  }

  function ReactTexts(items: seq<Value>): (r: Result<string>)
    ensures r.Ok? <==> forall i :: 0 <= i < |items| ==> Renderable(items[i])
    decreases items
  {
    if |items| == 0 then Ok("")
    else
      var first :- ReactText(items[0]);
      var rest :- ReactTexts(items[1..]);
      Ok(first + rest)
  }

  /** Join of plain strings, for lists the application builds itself. */
  function JoinStrings(parts: seq<string>, sep: string): string {
    if |parts| == 0 then ""
    else if |parts| == 1 then parts[0]
    else parts[0] + sep + JoinStrings(parts[1..], sep)
  }

  // ---------------------------------------------------------------- numbers

  predicate IsDigit(c: char) {
    '0' <= c <= '9'
  }

  function DigitsValue(s: string): nat
    requires AllDigits(s)
  {
    if |s| == 0 then 0 else 10 * DigitsValue(s[..|s| - 1]) + (s[|s| - 1] as int - '0' as int)
  }

  function Pow10(k: nat): (r: nat)
    ensures r > 0
  {
    if k == 0 then 1 else 10 * Pow10(k - 1)
  }

  /** Index of the first occurrence of c in s, or |s| when there is none. */
  function IndexOf(s: string, c: char): (i: nat)
    ensures i <= |s|
    ensures i < |s| ==> s[i] == c
    ensures forall j :: 0 <= j < i ==> s[j] != c
  {
    if |s| == 0 then 0 else if s[0] == c then 0 else 1 + IndexOf(s[1..], c)
  }

  predicate AllDigits(s: string) {
    forall j :: 0 <= j < |s| ==> IsDigit(s[j])
  }

  /** Digits with at most one '.', and at least one digit: "12", "12.", ".5", "12.5". */
  function UnsignedDecimal(t: string): Option<real> {
    var i := IndexOf(t, '.');
    var whole := t[..i];
    var frac := if i < |t| then t[i + 1..] else "";
    if |whole| + |frac| > 0 && AllDigits(whole) && AllDigits(frac) then
      Some(DigitsValue(whole) as real + DigitsValue(frac) as real / Pow10(|frac|) as real)
    else None
  }

  /** Number(s) for decimal strings; None stands for NaN. */
  function StringToNumber(s: string): Option<real> {
    var t := Trim(s);
    if t == "" then Some(0.0)
    else if t[0] == '-' then
      match UnsignedDecimal(t[1..])
      case Some(x) => Some(-x)
      case None => None
    else if t[0] == '+' then UnsignedDecimal(t[1..])
    else UnsignedDecimal(t)
  }

  /** Number(v), the coercion behind `v >= 8`, `v / 2` and `v % 2`; None stands for NaN. */
  function ToNumber(v: Value): Option<real> {
    match v
    case Undefined => None
    case Null => Some(0.0)
    case Bool(b) => Some(if b then 1.0 else 0.0)
    case Num(n) => Some(n)
    case Str(s) => StringToNumber(s)
    case Arr(items) => StringToNumber(JoinText(items, ","))
    case Obj(_) => None
  }

  /** `v >= k` for a number literal k. */
  predicate AtLeast(v: Value, k: real) {
    var x := ToNumber(v);
    x.Some? && x.value >= k
  }

  /** `v <= k` for a number literal k. */
  predicate AtMost(v: Value, k: real) {
    var x := ToNumber(v);
    x.Some? && x.value <= k
  }

  /** `v > k` for a number literal k. */
  predicate Above(v: Value, k: real) {
    var x := ToNumber(v);
    x.Some? && x.value > k
  }

  /** Math.trunc */
  function Trunc(x: real): int {
    if x >= 0.0 then x.Floor else -((-x).Floor)
  }

  /** The `%` operator: the remainder takes the sign of the dividend. */
  function Rem(a: real, b: real): real
    requires b != 0.0
  {
    a - b * Trunc(a / b) as real
  }
}
