/**
 * The slice of JavaScript semantics the client relies on: its dynamic values,
 * truthiness, `||` / `&&` / `??`, property reads, `String(v)`, `parseInt(s, 10)`,
 * `trim()`, ASCII case mapping and the string helpers the client calls.
 */
module Js {
  import opened Wrappers

  /** A JavaScript value as it arrives from the backend or storage. Numbers are integers. */
  datatype JsValue =
    | Undefined
    | Null
    | Bool(b: bool)
    | Num(n: int)
    | Str(s: string)
    | Arr(elems: seq<JsValue>)
    | Obj(fields: map<string, JsValue>)

  /** JavaScript truthiness: `undefined`, `null`, `false`, `0` and `""` are falsy. */
  predicate Truthy(v: JsValue) {
    match v
    case Undefined => false
    case Null => false
    case Bool(b) => b
    case Num(n) => n != 0
    case Str(s) => s != ""
    case Arr(_) => true
    case Obj(_) => true
  }

  predicate Nullish(v: JsValue) {
    v.Undefined? || v.Null?
  }

  /** `a || b` */
  function Or(a: JsValue, b: JsValue): JsValue {
    if Truthy(a) then a else b
  }

  /** `a && b` */
  function And(a: JsValue, b: JsValue): JsValue {
    if Truthy(a) then b else a
  }

  /** `a ?? b` */
  function Coalesce(a: JsValue, b: JsValue): JsValue {
    if Nullish(a) then b else a
  }

  /**
   * `v.key` on a value that is neither `null` nor `undefined` (reading a property
   * of those throws a TypeError, which the callers model). Only the own fields of
   * objects are modelled: the property names this client reads are not properties
   * of strings, numbers, booleans or arrays.
   */
  function Prop(v: JsValue, key: string): JsValue
    requires !Nullish(v)
  {
    if v.Obj? && key in v.fields then v.fields[key] else Undefined
  }

  /** A field of a plain object, `undefined` when absent. */
  function Field(fields: map<string, JsValue>, key: string): JsValue {
    if key in fields then fields[key] else Undefined
  }

  /** `String(v)`, also what a template literal `${v}` produces. */
  function JsString(v: JsValue): string
    decreases v, 1
  {
    match v
    case Undefined => "undefined"
    case Null => "null"
    case Bool(b) => if b then "true" else "false"
    case Num(n) => IntToDecimal(n)
    case Str(s) => s
    case Arr(_) => JoinElements(v, 0)
    case Obj(_) => "[object Object]"
  }

  /** `Array.prototype.join(",")` from index `i`; `null` and `undefined` elements print as "". */
  function JoinElements(v: JsValue, i: nat): string
    requires v.Arr? && i <= |v.elems|
    decreases v, 0, |v.elems| - i
  {
    if i == |v.elems| then ""
    else
      var e := v.elems[i];
      var s := if Nullish(e) then "" else JsString(e);
      if i + 1 == |v.elems| then s else s + "," + JoinElements(v, i + 1)
  }

  // ---------------------------------------------------------------- decimal digits

  predicate IsDigit(c: char) {
    '0' <= c <= '9'
  }

  predicate AllDigits(s: string) {
    forall i :: 0 <= i < |s| ==> IsDigit(s[i])
  }

  function DigitChar(d: int): (c: char)
    requires 0 <= d < 10
    ensures IsDigit(c) && c as int - '0' as int == d
  {
    ('0' as int + d) as char
  }

  /** The decimal numeral of a natural number, without leading zeros. */
  function NatToDecimal(n: nat): (r: string)
    ensures |r| > 0 && AllDigits(r)
    decreases n
  {
    if n < 10 then [DigitChar(n)] else NatToDecimal(n / 10) + [DigitChar(n % 10)]
  }

  /** `String(n)` for an integer. */
  function IntToDecimal(n: int): string {
    if n < 0 then "-" + NatToDecimal(-n) else NatToDecimal(n)
  }

  /** The value of a run of decimal digits. */
  function DigitsValue(s: string): nat
    requires AllDigits(s)
  {
    if s == [] then 0 else DigitsValue(s[..|s| - 1]) * 10 + (s[|s| - 1] as int - '0' as int)
  }

  /** The length of the longest prefix of `s` made of decimal digits. */
  function DigitPrefixLength(s: string): (k: nat)
    ensures k <= |s| && AllDigits(s[..k])
    ensures k < |s| ==> !IsDigit(s[k])
  {
    if s == [] || !IsDigit(s[0]) then 0
    else
      var k := 1 + DigitPrefixLength(s[1..]);
      assert s[..k] == [s[0]] + s[1..][..k - 1];
      k
  }

  /**
   * `parseInt(s, 10)`: skip leading white space, take an optional sign and the
   * longest run of decimal digits; `None` stands for NaN (no digits at all).
   */
  function ParseInt(s: string): (r: Option<int>)
    ensures r.None? <==> DigitPrefixLength(SignStripped(TrimStart(s))) == 0
  {
    var t := TrimStart(s);
    var u := SignStripped(t);
    var k := DigitPrefixLength(u);
    if k == 0 then None
    else
      var m: int := DigitsValue(u[..k]);
      Some(if |t| > 0 && t[0] == '-' then -m else m)
  }

  function SignStripped(t: string): string {
    if |t| > 0 && (t[0] == '-' || t[0] == '+') then t[1..] else t
  }

  lemma {:induction false} DigitsValueOfNumeral(n: nat)
    ensures DigitsValue(NatToDecimal(n)) == n
    decreases n
  {
    var r := NatToDecimal(n);
    if n >= 10 {
      DigitsValueOfNumeral(n / 10);
      assert r[..|r| - 1] == NatToDecimal(n / 10);
    }
  }

  lemma DigitPrefixOfAllDigits(s: string)
    requires AllDigits(s)
    ensures DigitPrefixLength(s) == |s|
  {
    if s != [] {
      DigitPrefixOfAllDigits(s[1..]);
    }
  }

  lemma TrimStartNoLeadingSpace(s: string)
    requires s != [] && !IsJsSpace(s[0])
    ensures TrimStart(s) == s
  {
  }

  /** `parseInt(String(n), 10) === n`: the decimal numeral of an integer parses back to it. */
  lemma ParseIntOfDecimal(n: int)
    ensures ParseInt(IntToDecimal(n)) == Some(n)
  {
    var m: nat := if n < 0 then -n else n;
    DigitsValueOfNumeral(m);
    ParseIntOfDigits(NatToDecimal(m));
  }

  /** A run of digits, with or without a leading minus sign, parses to its value. */
  lemma ParseIntOfDigits(d: string)
    requires d != [] && AllDigits(d)
    ensures ParseInt(d) == Some(DigitsValue(d))
    ensures ParseInt("-" + d) == Some(-(DigitsValue(d) as int))
  {
    DigitPrefixOfAllDigits(d);
    assert d[..|d|] == d;
    assert IsDigit(d[0]);
    TrimStartNoLeadingSpace(d);
    assert SignStripped(d) == d;
    var s := "-" + d;
    TrimStartNoLeadingSpace(s);
    assert SignStripped(s) == d;
  }

  /** Different integers have different decimal numerals. */
  lemma DecimalInjective(a: int, b: int)
    requires a != b
    ensures IntToDecimal(a) != IntToDecimal(b)
  {
    ParseIntOfDecimal(a);
    ParseIntOfDecimal(b);
  }

  // ---------------------------------------------------------------- white space

  /** The characters `\s`, `trim()` and `parseInt` treat as white space (WhiteSpace and LineTerminator). */
  predicate IsJsSpace(c: char) {
    || c == '\U{0009}' || c == '\U{000A}' || c == '\U{000B}' || c == '\U{000C}' || c == '\U{000D}'
    || c == '\U{0020}' || c == '\U{00A0}' || c == '\U{1680}'
    || ('\U{2000}' <= c <= '\U{200A}')
    || c == '\U{2028}' || c == '\U{2029}' || c == '\U{202F}' || c == '\U{205F}'
    || c == '\U{3000}' || c == '\U{FEFF}'
  }

  predicate AllSpace(s: string) {
    forall i :: 0 <= i < |s| ==> IsJsSpace(s[i])
  }

  /** `trimStart()` */
  function TrimStart(s: string): (r: string)
    ensures |r| > 0 ==> !IsJsSpace(r[0])
    ensures |r| <= |s| && r == s[|s| - |r|..] && AllSpace(s[..|s| - |r|])
  {
    if s != [] && IsJsSpace(s[0]) then
      var r := TrimStart(s[1..]);
      assert s[..|s| - |r|] == [s[0]] + s[1..][..|s| - 1 - |r|];
      r
    else s
  }

  /** `trimEnd()` */
  function TrimEnd(s: string): (r: string)
    ensures |r| > 0 ==> !IsJsSpace(r[|r| - 1])
    ensures |r| <= |s| && r == s[..|r|] && AllSpace(s[|r|..])
  {
    if s != [] && IsJsSpace(s[|s| - 1]) then
      var r := TrimEnd(s[..|s| - 1]);
      assert s[|r|..] == s[..|s| - 1][|r|..] + [s[|s| - 1]];
      r
    else s
  }

  /** `trim()` */
  function Trim(s: string): (r: string)
    ensures |r| > 0 ==> !IsJsSpace(r[0]) && !IsJsSpace(r[|r| - 1])
  {
    TrimEnd(TrimStart(s))
  }

  lemma {:induction false} TrimStartPadded(pad: string, s: string)
    requires AllSpace(pad)
    ensures TrimStart(pad + s) == TrimStart(s)
    decreases |pad|
  {
    if pad != [] {
      assert (pad + s)[1..] == pad[1..] + s;
      TrimStartPadded(pad[1..], s);
    } else {
      assert pad + s == s;
    }
  }

  lemma {:induction false} TrimEndPadded(s: string, pad: string)
    requires AllSpace(pad)
    ensures TrimEnd(s + pad) == TrimEnd(s)
    decreases |pad|
  {
    if pad != [] {
      var p' := pad[..|pad| - 1];
      assert (s + pad)[..|s + pad| - 1] == s + p';
      TrimEndPadded(s, p');
    } else {
      assert s + pad == s;
    }
  }

  lemma {:induction false} TrimStartKeepsTrailing(s: string, pad: string)
    requires TrimStart(s) != []
    ensures TrimStart(s + pad) == TrimStart(s) + pad
    decreases |s|
  {
    assert s != [];
    if IsJsSpace(s[0]) {
      assert (s + pad)[1..] == s[1..] + pad;
      TrimStartKeepsTrailing(s[1..], pad);
    } else {
      assert (s + pad)[0] == s[0];
    }
  }

  /** White space around a string does not change what `trim()` returns. */
  lemma TrimPadded(pre: string, s: string, post: string)
    requires AllSpace(pre) && AllSpace(post)
    ensures Trim(pre + s + post) == Trim(s)
  {
    var x := pre + s + post;
    assert TrimStart(x) == TrimStart(s + post) by {
      assert x == pre + (s + post);
      TrimStartPadded(pre, s + post);
    }
    TrimTrailingPadded(s, post);
    assert Trim(x) == TrimEnd(TrimStart(x));
  }

  lemma TrimTrailingPadded(s: string, post: string)
    requires AllSpace(post)
    ensures TrimEnd(TrimStart(s + post)) == Trim(s)
  {
    if TrimStart(s) == [] {
      assert AllSpace(s[..|s|]);
      assert s[..|s|] == s;
      TrimStartPadded(s, post);
      TrimStartAllSpace(post);
    } else {
      TrimStartKeepsTrailing(s, post);
      TrimEndPadded(TrimStart(s), post);
    }
  }

  lemma {:induction false} TrimStartAllSpace(s: string)
    requires AllSpace(s)
    ensures TrimStart(s) == []
    decreases |s|
  {
    if s != [] {
      TrimStartAllSpace(s[1..]);
    }
  }

  // ---------------------------------------------------------------- case mapping

  function LowerChar(c: char): char {
    if 'A' <= c <= 'Z' then (c as int + 32) as char else c
  }

  function UpperChar(c: char): char {
    if 'a' <= c <= 'z' then (c as int - 32) as char else c
  }

  /** `toLowerCase()` for the ASCII letters. */
  function ToLowerCase(s: string): (r: string)
    ensures |r| == |s| && forall i :: 0 <= i < |s| ==> r[i] == LowerChar(s[i])
  {
    if s == [] then [] else [LowerChar(s[0])] + ToLowerCase(s[1..])
  }

  /** Two strings that differ at most in the case of their letters. */
  predicate CaseVariants(a: string, b: string) {
    |a| == |b| && forall i :: 0 <= i < |a| ==> LowerChar(a[i]) == LowerChar(b[i])
  }

  lemma LowerCharKeepsSpace(c: char)
    ensures IsJsSpace(LowerChar(c)) == IsJsSpace(c)
  {
  }

  /** The canonical form both normalisers start from: `s.trim().toLowerCase()`. */
  function Canon(s: string): string {
    ToLowerCase(Trim(s))
  }

  lemma {:induction false} TrimStartCaseVariants(a: string, b: string)
    requires CaseVariants(a, b)
    ensures CaseVariants(TrimStart(a), TrimStart(b))
    decreases |a|
  {
    if a != [] {
      assert LowerChar(a[0]) == LowerChar(b[0]);
      LowerCharKeepsSpace(a[0]);
      LowerCharKeepsSpace(b[0]);
      if IsJsSpace(a[0]) {
        TrimStartCaseVariants(a[1..], b[1..]);
      }
    }
  }

  lemma {:induction false} TrimEndCaseVariants(a: string, b: string)
    requires CaseVariants(a, b)
    ensures CaseVariants(TrimEnd(a), TrimEnd(b))
    decreases |a|
  {
    if a != [] {
      var n := |a| - 1;
      assert LowerChar(a[n]) == LowerChar(b[n]);
      LowerCharKeepsSpace(a[n]);
      LowerCharKeepsSpace(b[n]);
      if IsJsSpace(a[n]) {
        TrimEndCaseVariants(a[..n], b[..n]);
      }
    }
  }

  /**
   * `s.trim().toLowerCase()` does not depend on the case of the letters of `s`
   * nor on white space added around it.
   */
  lemma CanonIgnoresCaseAndPadding(g: string, pre: string, h: string, post: string)
    requires CaseVariants(g, h) && AllSpace(pre) && AllSpace(post)
    ensures Canon(pre + h + post) == Canon(g)
  {
    TrimPadded(pre, h, post);
    TrimStartCaseVariants(h, g);
    TrimEndCaseVariants(TrimStart(h), TrimStart(g));
  }

  /** Lower-casing twice is lower-casing once. */
  lemma ToLowerCaseIdempotent(s: string)
    ensures ToLowerCase(ToLowerCase(s)) == ToLowerCase(s)
  {
  }

  // ---------------------------------------------------------------- string helpers

  /** `s.startsWith(p)` */
  predicate StartsWith(s: string, p: string) {
    |p| <= |s| && s[..|p|] == p
  }

  /** `parts.join(sep)` */
  function Join(parts: seq<string>, sep: string): string {
    if parts == [] then ""
    else if |parts| == 1 then parts[0]
    else parts[0] + sep + Join(parts[1..], sep)
  }

  /** The first truthy value, `undefined` when there is none. */
  function FirstTruthy(vs: seq<JsValue>): (r: JsValue)
    ensures Truthy(r) <==> exists i :: 0 <= i < |vs| && Truthy(vs[i])
    ensures Truthy(r) ==> exists i :: 0 <= i < |vs| && r == vs[i] && forall j :: 0 <= j < i ==> !Truthy(vs[j])
  {
    if vs == [] then Undefined
    else if Truthy(vs[0]) then vs[0]
    else
      var r := FirstTruthy(vs[1..]);
      assert forall i :: 1 <= i < |vs| ==> vs[i] == vs[1..][i - 1];
      r
  }

  lemma FirstTruthyOfThree(a: JsValue, b: JsValue, c: JsValue)
    ensures FirstTruthy([a, b, c]) == Or(Or(Or(a, b), c), Undefined)
  {
    assert [c][1..] == [];
    assert FirstTruthy([c]) == Or(c, Undefined);
    assert [b, c][1..] == [c];
    assert FirstTruthy([b, c]) == Or(b, Or(c, Undefined));
    assert [a, b, c][1..] == [b, c];
    assert FirstTruthy([a, b, c]) == Or(a, Or(b, Or(c, Undefined)));
  }

  /** `a || b || c || d`, ending in `undefined`, is the first truthy of the four. */
  lemma FirstTruthyOfFour(a: JsValue, b: JsValue, c: JsValue, d: JsValue)
    ensures FirstTruthy([a, b, c, d]) == Or(a, FirstTruthy([b, c, d]))
    ensures FirstTruthy([b, c, d]) == Or(Or(Or(b, c), d), Undefined)
  {
    FirstTruthyOfThree(b, c, d);
    assert [a, b, c, d][1..] == [b, c, d];
  }
}
