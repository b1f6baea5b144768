/**
 * The JSON values the screens receive from the backend, with the JavaScript
 * semantics the pages rely on: truthiness, `a || b`, property reads, `.length`,
 * `Number(…)` and `parseFloat(…)`; and the three ways an axios request can fail.
 */
module Js {
  import opened Wrappers

  datatype Value =
    | Undefined
    | Null
    | Num(x: real)
    | Str(s: string)
    | Obj(fields: map<string, Value>)
    | Arr(items: seq<Value>)

  /** A JavaScript object such as a trip, truck, driver or client record. */
  type Record = map<string, Value>

  predicate IsNullish(v: Value) {
    v.Undefined? || v.Null?
  }

  /** JavaScript truthiness: `undefined`, `null`, `0` and `""` are falsy. */
  predicate Truthy(v: Value) {
    match v
    case Undefined => false
    case Null => false
    case Num(x) => x != 0.0
    case Str(s) => s != ""
    case Obj(_) => true
    case Arr(_) => true
  }

  /** `a || b`: one of the two operands, truthy when either is. */
  function Or(a: Value, b: Value): (r: Value)
    ensures r == a || r == b
    ensures Truthy(r) <==> Truthy(a) || Truthy(b)
    ensures Truthy(a) ==> r == a
  {
    if Truthy(a) then a else b
  }

  /** `r.k` on an object: a property that is not there reads as `undefined`. */
  function Get(r: Record, k: string): Value {
    if k in r then r[k] else Undefined
  }

  /** `v.k` on a value that is neither null nor undefined: only objects carry the properties the pages read. */
  function Prop(v: Value, k: string): Value {
    if v.Obj? then Get(v.fields, k) else Undefined
  }

  /** `v.length`; `None` is `undefined`. */
  function Length(v: Value): Option<nat> {
    match v
    case Str(s) => Some(|s|)
    case Arr(items) => Some(|items|)
    case _ => None
  }

  /** The elements of an array of objects, or `None` when `v` is not one. */
  function Records(v: Value): Option<seq<Record>> {
    if v.Arr? && forall i :: 0 <= i < |v.items| ==> v.items[i].Obj? then
      Some(seq(|v.items|, i requires 0 <= i < |v.items| && v.items[i].Obj? => v.items[i].fields))
    else
      None
  }

  // ---------------------------------------------------------------------------
  // Numbers. `None` stands for NaN. Numeric text is read in the plain decimal
  // forms `d+`, `d+.d*` and `.d+`, optionally after `-`.

  predicate IsDigit(c: char) {
    '0' <= c <= '9'
  }

  predicate AllDigits(s: string) {
    forall i :: 0 <= i < |s| ==> IsDigit(s[i])
  }

  function DigitsValue(s: string): nat
    requires AllDigits(s)
  {
    if s == [] then 0 else 10 * DigitsValue(s[..|s| - 1]) + (s[|s| - 1] as int - '0' as int)
  }

  function Pow10(n: nat): (p: nat)
    ensures p > 0
  {
    if n == 0 then 1 else 10 * Pow10(n - 1)
  }

  /** Index of the first `.` in `s`, or `|s|` when there is none. */
  function DotIndex(s: string): (k: nat)
    ensures k <= |s|
    ensures forall i :: 0 <= i < k ==> s[i] != '.'
    ensures k < |s| ==> s[k] == '.'
  {
    if s == [] || s[0] == '.' then 0 else 1 + DotIndex(s[1..])
  }

  /** Digits with at most one `.`, and at least one digit; either side of the `.` may be empty. */
  function Unsigned(s: string): Option<real> {
    var k := DotIndex(s);
    var whole := s[..k];
    if !AllDigits(whole) then None
    else if k == |s| then
      if whole == [] then None else Some(DigitsValue(whole) as real)
    else
      var frac := s[k + 1..];
      if AllDigits(frac) && (whole != [] || frac != []) then
        Some(DigitsValue(whole) as real + DigitsValue(frac) as real / Pow10(|frac|) as real)
      else
        None
  }

  function Decimal(s: string): Option<real> {
    if |s| > 0 && s[0] == '-' then
      match Unsigned(s[1..])
      case Some(x) => Some(-x)
      case None => None
    else
      Unsigned(s)
  }

  /** `Number(v)` */
  function ToNumber(v: Value): Option<real> {
    match v
    case Undefined => None
    case Null => Some(0.0)
    case Num(x) => Some(x)
    case Str(s) => if s == "" then Some(0.0) else Decimal(s)
    case Obj(_) => None
    case Arr(_) => None
  }

  /** `parseFloat(v)` */
  function ParseFloat(v: Value): Option<real> {
    match v
    case Num(x) => Some(x)
    case Str(s) => Decimal(s)
    case _ => None
  }

  /**
   * `Number` and `parseFloat` read the same numbers, except that `Number`
   * takes `null` and the empty text for 0 where `parseFloat` gives NaN.
   */
  lemma NumberVersusParseFloat(v: Value)
    ensures ParseFloat(v).Some? ==> ToNumber(v) == ParseFloat(v)
    ensures ToNumber(v).Some? && ParseFloat(v).None? <==> v == Null || v == Str("")
    ensures ToNumber(v).None? ==> ParseFloat(v).None?
  {
    if v == Str("") {
      assert DotIndex("") == 0;
    }
  }

  lemma LeadingPoint()
    ensures Decimal(".5") == Some(0.5)
  {
    assert DotIndex(".5") == 0;
    assert ".5"[1..] == "5" && "5"[..0] == "";
  }

  lemma TrailingPoint()
    ensures Decimal("5.") == Some(5.0)
  {
    assert DotIndex(".") == 0;
    assert "5."[..1] == "5" && "5"[..0] == "" && "5."[2..] == "";
  }

  lemma LonePoint()
    ensures Decimal(".") == None
  {
    assert DotIndex(".") == 0;
  }

  /** A side of the decimal point may be left empty, but not both. */
  lemma BareFractions()
    ensures ParseFloat(Str(".5")) == Some(0.5) && ToNumber(Str(".5")) == Some(0.5)
    ensures ParseFloat(Str("5.")) == Some(5.0) && ToNumber(Str("-.5")) == Some(-0.5)
    ensures ParseFloat(Str(".")) == None && ToNumber(Str(".")) == None
  {
    LeadingPoint();
    TrailingPoint();
    LonePoint();
    assert "-.5"[1..] == ".5";
  }

  /** The decimal numeral of `n`, as a number input would hold it. */
  function Numeral(n: nat): string {
    if n < 10 then [('0' as int + n) as char] else Numeral(n / 10) + [('0' as int + n % 10) as char]
  }

  lemma {:induction false} NumeralDigits(n: nat)
    ensures AllDigits(Numeral(n)) && Numeral(n) != []
    ensures DigitsValue(Numeral(n)) == n
  {
    if n >= 10 {
      NumeralDigits(n / 10);
      var s := Numeral(n);
      assert s[..|s| - 1] == Numeral(n / 10);
    }
  }

  /** A run of digits reads as its value. */
  lemma DigitsRead(s: string)
    requires AllDigits(s) && s != []
    ensures Decimal(s) == Some(DigitsValue(s) as real)
  {
    assert IsDigit(s[0]);
    var k := DotIndex(s);
    assert k == |s| by {
      assert forall i :: 0 <= i < |s| ==> IsDigit(s[i]);
    }
    assert s[..k] == s;
  }

  /** Reading back the numeral of a whole number gives that number, with `Number` and `parseFloat` alike. */
  lemma NumeralRoundTrip(n: nat)
    ensures ParseFloat(Str(Numeral(n))) == Some(n as real)
    ensures ToNumber(Str(Numeral(n))) == Some(n as real)
  {
    NumeralDigits(n);
    DigitsRead(Numeral(n));
  }

  // ---------------------------------------------------------------------------
  // Replies from the backend.

  /** How a request ended, as axios reports it. */
  datatype Reply =
    | Ok(data: Value)                      // a 2xx answer: `res.data`
    | HttpError(status: int, body: Value)  // `error.response` is set
    | NoResponse                           // only `error.request` is set
    | SetupError                           // neither is set: nothing was sent

  /** `error.response?.data?.erro || fallback` for a failed request. */
  function ErrorText(r: Reply, fallback: string): (msg: string)
    ensures fallback != "" ==> msg != ""
    ensures !r.HttpError? ==> msg == fallback
    ensures r.HttpError? && Prop(r.body, "erro").Str? && Prop(r.body, "erro").s != "" ==>
      msg == Prop(r.body, "erro").s
    ensures msg != fallback ==> r.HttpError? && Prop(r.body, "erro") == Str(msg) && msg != ""
  {
    var e := if r.HttpError? then Prop(r.body, "erro") else Undefined;
    if e.Str? && e.s != "" then e.s else fallback
  }

  /** `PATCH /viagens/{id}/finalizar` with body `{custos}`: the backend computes the profit. */
  datatype FinalizeRequest = FinalizeRequest(id: Value, custos: Value)
}
