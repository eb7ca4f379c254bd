/** JavaScript values as the customizer code reads them, and the coercions it applies to them:
    truthiness, optional-chaining property reads, `toNumber`, `parseFloat`, `trim`, ASCII
    `toLowerCase`, `String(n)` for counters, and `Array.prototype.filter` by index. */
module Js {

  datatype Option<T> = None | Some(value: T)

  /** A JSON-shaped JavaScript value. Finite numbers are reals; NaN and the two infinities are
      kept apart because `Number.isFinite` and `isNaN` tell them apart. */
  datatype JsValue =
    | Undefined
    | Null
    | Bool(b: bool)
    | Num(r: real)
    | NaN
    | Infinity(positive: bool)
    | Str(s: string)
    | Obj(props: map<string, JsValue>)

  /** The values of JavaScript's number type. */
  type NumberValue = v: JsValue | v.Num? || v.NaN? || v.Infinity? witness NaN

  /** `parseFloat` on a string is given, not modelled: any function from strings to numbers. */
  type ParseFloat = string -> NumberValue

  /** A value handed to code that branches on `Array.isArray`. */
  datatype ArrayOrNot<T> = IsArray(items: seq<T>) | NotArray

  /** The outcome of `JSON.parse` as the callers use it: an array, some other value, or a throw. */
  datatype JsonResult<T> = JsonArray(items: seq<T>) | JsonOther | JsonError

  /** `JSON.parse` is given, not modelled. */
  type JsonParse<T> = string -> JsonResult<T>

  /** The argument of the editors' `parseInitial`: an array, a string to parse, or anything else. */
  datatype Initial<T> = InitArray(items: seq<T>) | InitString(s: string) | InitOther

  predicate Truthy(v: JsValue) {
    match v
    case Undefined => false
    case Null => false
    case Bool(b) => b
    case Num(r) => r != 0.0
    case NaN => false
    case Infinity(_) => true
    case Str(s) => s != ""
    case Obj(_) => true
  }

  /** `v?.key`: a missing property and a property of a non-object read as undefined. */
  function Prop(v: JsValue, key: string): (r: JsValue)
    ensures !v.Obj? ==> r == Undefined
    ensures v.Obj? && key in v.props ==> r == v.props[key]
  {
    if v.Obj? && key in v.props then v.props[key] else Undefined
  }

  /** `toNumber(val, fallback)`: a string goes through `parseFloat`; the result is used only when
      it is a finite number, otherwise the fallback is. */
  function ToNumber(v: JsValue, fallback: real, pf: ParseFloat): (r: real)
    ensures v.Num? ==> r == v.r
    ensures v.Str? && pf(v.s).Num? ==> r == pf(v.s).r
    ensures v.Str? && !pf(v.s).Num? ==> r == fallback
    ensures !v.Num? && !v.Str? ==> r == fallback
  {
    var n := if v.Str? then pf(v.s) else v;
    if n.Num? then n.r else fallback
  }

  /** `parseFloat(v)` for any value: numbers survive the round trip through their string form;
      undefined, null, booleans and plain objects print as text that does not start a number. */
  function ParseFloatOf(v: JsValue, pf: ParseFloat): (r: NumberValue)
    ensures v.Num? || v.NaN? || v.Infinity? ==> r == v
    ensures v.Str? ==> r == pf(v.s)
    ensures v.Undefined? || v.Null? || v.Bool? || v.Obj? ==> r == NaN
  {
    match v
    case Num(_) => v
    case NaN => v
    case Infinity(_) => v
    case Str(s) => pf(s)
    case _ => NaN
  }

  /** Real multiplication, kept behind a name so that unfolding a price does not drag every
      proof about it into nonlinear arithmetic. */
  function Times(a: real, b: real): real {
    a * b
  }

  /** The characters `String.prototype.trim` removes and the regular expression class `\s`
      matches: WhiteSpace and LineTerminator of ECMAScript. */
  predicate IsSpace(c: char) {
    c == '\t' || c == '\n' || c == '\U{000B}' || c == '\U{000C}' || c == '\r' || c == ' '
    || c == '\U{00A0}' || c == '\U{1680}' || ('\U{2000}' <= c <= '\U{200A}')
    || c == '\U{2028}' || c == '\U{2029}' || c == '\U{202F}' || c == '\U{205F}' || c == '\U{3000}'
    || c == '\U{FEFF}'
  }

  function TrimStart(s: string): (r: string)
    ensures |r| <= |s|
    ensures r == s[|s| - |r|..]
    ensures r != [] ==> !IsSpace(r[0])
    ensures forall i :: 0 <= i < |s| - |r| ==> IsSpace(s[i])
  {
    if s != [] && IsSpace(s[0]) then TrimStart(s[1..]) else s
  }

  function TrimEnd(s: string): (r: string)
    ensures |r| <= |s|
    ensures r == s[..|r|]
    ensures r != [] ==> !IsSpace(r[|r| - 1])
    ensures forall i :: |r| <= i < |s| ==> IsSpace(s[i])
  {
    if s != [] && IsSpace(s[|s| - 1]) then TrimEnd(s[..|s| - 1]) else s
  }

  /** `s.trim()`. */
  function Trim(s: string): string {
    TrimEnd(TrimStart(s))
  }

  /** `!s || !s.trim()`: the string is missing (modelled as "") or holds only white space.
      Stated by characters; `BlankIffTrimEmpty` ties it to `Trim`. */
  predicate Blank(s: string) {
    forall i :: 0 <= i < |s| ==> IsSpace(s[i])
  }

  lemma BlankIffTrimEmpty(s: string)
    ensures Blank(s) <==> Trim(s) == ""
  {
    if Blank(s) {
      AllSpaceTrimsToEmpty(s);
    } else {
      var i :| 0 <= i < |s| && !IsSpace(s[i]);
      NonSpaceSurvivesTrim(s, i);
    }
  }

  lemma AllSpaceTrimsToEmpty(s: string)
    requires forall i :: 0 <= i < |s| ==> IsSpace(s[i])
    ensures Trim(s) == ""
  {
  }

  lemma NonSpaceSurvivesTrim(s: string, i: nat)
    requires i < |s| && !IsSpace(s[i])
    ensures Trim(s) != ""
  {
    var t := TrimStart(s);
    var k := i - (|s| - |t|);
    assert 0 <= k < |t| && t[k] == s[i];
    var u := TrimEnd(t);
    assert k < |u|;
  }

  predicate IsUpperAscii(c: char) {
    'A' <= c <= 'Z'
  }

  /** `toLowerCase` on the ASCII letters; every other character is kept as it is. */
  function LowerChar(c: char): (r: char)
    ensures !IsUpperAscii(r)
    ensures IsUpperAscii(c) ==> r as int == c as int + 32
    ensures !IsUpperAscii(c) ==> r == c
  {
    if IsUpperAscii(c) then (c as int + 32) as char else c
  }

  function Lower(s: string): (r: string)
    ensures |r| == |s|
    ensures forall i :: 0 <= i < |s| ==> r[i] == LowerChar(s[i])
  {
    if s == [] then [] else [LowerChar(s[0])] + Lower(s[1..])
  }

  /** `hay.includes(needle)` for strings. */
  predicate Contains(hay: string, needle: string) {
    exists i :: 0 <= i <= |hay| - |needle| && OccursAt(hay, needle, i)
  }

  predicate OccursAt(hay: string, needle: string, i: int)
    requires 0 <= i <= |hay| - |needle|
  {
    hay[i..i + |needle|] == needle
  }

  lemma ContainsEmpty(hay: string)
    ensures Contains(hay, "")
  {
    assert OccursAt(hay, "", 0);
  }

  function DigitChar(d: nat): (c: char)
    requires d < 10
    ensures '0' <= c <= '9'
  {
    ('0' as int + d) as char
  }

  /** `String(n)` for a natural number: its decimal digits. */
  function DecimalString(n: nat): (r: string)
    ensures |r| >= 1
    ensures n < 10 <==> |r| == 1
    ensures forall i :: 0 <= i < |r| ==> '0' <= r[i] <= '9'
  {
    if n < 10 then [DigitChar(n)] else DecimalString(n / 10) + [DigitChar(n % 10)]
  }

  /** Distinct numbers print differently, so counters never produce the same text twice. */
  lemma {:induction false} DecimalStringInjective(a: nat, b: nat)
    requires DecimalString(a) == DecimalString(b)
    ensures a == b
  {
    var s := DecimalString(a);
    if a >= 10 && b >= 10 {
      assert s[..|s| - 1] == DecimalString(a / 10);
      assert DecimalString(b) == DecimalString(b / 10) + [DigitChar(b % 10)];
      assert DecimalString(a / 10) == DecimalString(b / 10);
      DecimalStringInjective(a / 10, b / 10);
      assert DigitChar(a % 10) == DigitChar(b % 10);
    }
  }

  /** `s.filter((_, j) => j !== i)`: drop the element at `i`; an index outside the list drops nothing. */
  function RemoveAt<T>(s: seq<T>, i: int): (r: seq<T>)
    ensures 0 <= i < |s| ==> |r| == |s| - 1
    ensures 0 <= i < |s| ==> forall j :: 0 <= j < i ==> r[j] == s[j]
    ensures 0 <= i < |s| ==> forall j :: i <= j < |r| ==> r[j] == s[j + 1]
    ensures !(0 <= i < |s|) ==> r == s
  {
    if 0 <= i < |s| then s[..i] + s[i + 1..] else s
  }

  /** `arr.splice(i, 0, x)`: insert `x` so that it lands at index `i` (`i` clamped to the length). */
  function InsertAt<T>(s: seq<T>, i: nat, x: T): (r: seq<T>)
    ensures |r| == |s| + 1
    ensures i <= |s| ==> r[i] == x
    ensures forall j :: 0 <= j < i && j < |s| ==> r[j] == s[j]
    ensures forall j :: i <= j < |s| ==> r[j + 1] == s[j]
  {
    if i <= |s| then s[..i] + [x] + s[i..] else s + [x]
  }
}
