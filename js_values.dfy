/**
 * The JavaScript view of a decoded JSON document, as the two front ends see it:
 * truthiness, property reads that may give `undefined`, conversion to a string,
 * `String.prototype.trim` and the global `parseInt`.
 */
module JsValues {
  import opened Seqs
  import opened Decimal

  /** A parsed JSON value. Numbers are integers; an object lists its members in document order. */
  datatype Json =
    | JNull
    | JBool(b: bool)
    | JNum(n: int)
    | JStr(s: string)
    | JArr(items: seq<Json>)
    | JObj(fields: seq<(string, Json)>)

  /** The result of a property read: `undefined` or a value. */
  datatype JsValue = Undefined | Value(v: Json)

  /** A JavaScript number as this code produces it: an integer, or NaN from a failed parseInt. */
  datatype JsNumber = Num(value: int) | NaN

  /** The errors a `catch` or a crash receives in this code. */
  datatype JsError = TypeError | SyntaxError | FetchFailed | NotOk

  /** `!!v` for a JSON value: null, false, 0 and "" are falsy, everything else truthy. */
  predicate Truthy(v: Json)
  {
    match v
    case JNull => false
    case JBool(b) => b
    case JNum(n) => n != 0
    case JStr(s) => s != ""
    case JArr(_) => true
    case JObj(_) => true
  }

  predicate TruthyValue(v: JsValue)
  {
    v.Value? && Truthy(v.v)
  }

  /** The member `key` of `fields`, or `undefined`. */
  function Lookup(fields: seq<(string, Json)>, key: string): (r: JsValue)
    ensures r.Value? ==> exists i :: 0 <= i < |fields| && fields[i] == (key, r.v)
    ensures r.Undefined? ==> forall i :: 0 <= i < |fields| ==> fields[i].0 != key
  {
    if |fields| == 0 then Undefined
    else if fields[0].0 == key then Value(fields[0].1)
    else Lookup(fields[1..], key)
  }

  /**
   * `v.key` on a value that is not null: only objects have the members this
   * code reads (`output`, `type`, `text`, `email`); on strings, numbers,
   * booleans and arrays the read gives `undefined`.
   */
  function Prop(v: Json, key: string): JsValue
  {
    match v
    case JObj(fields) => Lookup(fields, key)
    case _ => Undefined
  }

  /** ToString on a JSON value, as `join` and template literals apply it. */
  function ToString(v: Json): string
  {
    match v
    case JNull => "null"
    case JBool(b) => if b then "true" else "false"
    case JNum(n) => IntToString(n)
    case JStr(s) => s
    // Array.prototype.toString joins with "," and writes null elements as ""
    case JArr(items) => Join(seq(|items|, i requires 0 <= i < |items| => if items[i].JNull? then "" else ToString(items[i])), ",")
    case JObj(_) => "[object Object]"
  }

  /** `${v}` for a property read. */
  function ToStringValue(v: JsValue): string
  {
    match v
    case Undefined => "undefined"
    case Value(j) => ToString(j)
  }

  /** `n > 0`, `n <= 0` and `n === 0` on a number: every comparison with NaN is false. */
  predicate Positive(n: JsNumber) { n.Num? && n.value > 0 }
  predicate AtMostZero(n: JsNumber) { n.Num? && n.value <= 0 }
  predicate IsZero(n: JsNumber) { n.Num? && n.value == 0 }

  /** ECMAScript WhiteSpace and LineTerminator code points, the ones `trim` and `parseInt` skip. */
  predicate IsJsWhiteSpace(c: char)
  {
    || c == '\t' || c == '\n' || c == '\U{000B}' || c == '\U{000C}' || c == '\r' || c == ' '
    || c == '\U{00A0}' || c == '\U{1680}' || ('\U{2000}' <= c <= '\U{200A}')
    || c == '\U{2028}' || c == '\U{2029}' || c == '\U{202F}' || c == '\U{205F}'
    || c == '\U{3000}' || c == '\U{FEFF}'
  }

  /** `s` without its leading white space. */
  function TrimStart(s: string): string
  {
    if |s| > 0 && IsJsWhiteSpace(s[0]) then TrimStart(s[1..]) else s
  }

  /** TrimStart keeps a suffix: it stops at the first character that is not white space and drops only white space. */
  lemma {:induction false} TrimStartDropsWhiteSpace(s: string)
    ensures |TrimStart(s)| <= |s| && TrimStart(s) == s[|s| - |TrimStart(s)|..]
    ensures TrimStart(s) == "" || !IsJsWhiteSpace(TrimStart(s)[0])
    ensures forall i :: 0 <= i < |s| - |TrimStart(s)| ==> IsJsWhiteSpace(s[i])
  {
    if |s| > 0 && IsJsWhiteSpace(s[0]) {
      TrimStartDropsWhiteSpace(s[1..]);
      forall i | 0 <= i < |s| - |TrimStart(s)| ensures IsJsWhiteSpace(s[i]) {
        if i > 0 {
          assert s[i] == s[1..][i - 1];
        }
      }
    }
  }

  /** `s` without its trailing white space. */
  function TrimEnd(s: string): string
  {
    if |s| > 0 && IsJsWhiteSpace(s[|s| - 1]) then TrimEnd(s[..|s| - 1]) else s
  }

  /** TrimEnd keeps a prefix: it stops at the last character that is not white space and drops only white space. */
  lemma {:induction false} TrimEndDropsWhiteSpace(s: string)
    ensures |TrimEnd(s)| <= |s| && TrimEnd(s) == s[..|TrimEnd(s)|]
    ensures TrimEnd(s) == "" || !IsJsWhiteSpace(TrimEnd(s)[|TrimEnd(s)| - 1])
    ensures forall i :: |TrimEnd(s)| <= i < |s| ==> IsJsWhiteSpace(s[i])
  {
    if |s| > 0 && IsJsWhiteSpace(s[|s| - 1]) {
      TrimEndDropsWhiteSpace(s[..|s| - 1]);
      forall i | |TrimEnd(s)| <= i < |s| ensures IsJsWhiteSpace(s[i]) {
        if i < |s| - 1 {
          assert s[i] == s[..|s| - 1][i];
        }
      }
    }
  }

  /** `s.trim()`. */
  function Trim(s: string): string
  {
    TrimEnd(TrimStart(s))
  }

  /** Text that neither starts nor ends with white space is its own trim. */
  lemma TrimKeeps(s: string)
    requires s != "" && !IsJsWhiteSpace(s[0]) && !IsJsWhiteSpace(s[|s| - 1])
    ensures Trim(s) == s
  {
  }

  /** An input trims to nothing exactly when every character of it is white space. */
  lemma TrimEmptyIffBlank(s: string)
    ensures Trim(s) == "" <==> forall i :: 0 <= i < |s| ==> IsJsWhiteSpace(s[i])
  {
    var t := TrimStart(s);
    TrimStartDropsWhiteSpace(s);
    TrimEndDropsWhiteSpace(t);
  }

  /**
   * The global `parseInt(s)` with no radix, as section 19.2.5 of ECMAScript
   * defines it: skip leading white space, take one sign, take a "0x"/"0X"
   * prefix as radix 16, then read the longest run of digits; no digit gives NaN.
   */
  function ParseInt(s: string): JsNumber
  {
    var t := TrimStart(s);
    var negative := |t| > 0 && t[0] == '-';
    var u := if |t| > 0 && (t[0] == '-' || t[0] == '+') then t[1..] else t;
    var hex := |u| >= 2 && u[0] == '0' && (u[1] == 'x' || u[1] == 'X');
    var radix := if hex then 16 else 10;
    var digits := LeadingDigits(if hex then u[2..] else u, radix);
    if |digits| == 0 then NaN
    else
      var m: int := ValueOf(digits, radix);
      Num(if negative then -m else m)
  }

  /** What `String(n)` writes, parseInt reads back: the round trip through storage. */
  lemma ParseIntRoundTrip(n: int)
    ensures ParseInt(IntToString(n)) == Num(n)
  {
    var m: nat := if n < 0 then -n else n;
    var d := NatToString(m);
    LeadingDigitsOfNumeral(d);
    ValueOfNumeral(m);
    assert IsDecimalDigit(d[0]);
    assert !(|d| >= 2 && d[0] == '0');
    var s := IntToString(n);
    if n < 0 {
      assert s == "-" + d && s[1..] == d;
      assert TrimStart(s) == s;
    } else {
      assert s == d;
      assert !IsJsWhiteSpace(d[0]);
      assert TrimStart(s) == s;
    }
  }

  /** Different integers are written differently. */
  lemma IntToStringInjective(a: int, b: int)
    requires IntToString(a) == IntToString(b)
    ensures a == b
  {
    ParseIntRoundTrip(a);
    ParseIntRoundTrip(b);
  }

  /** parseInt gives NaN for text that does not start with a number, such as a tampered stored value. */
  lemma ParseIntNoDigits(s: string)
    requires s != "" && forall i :: 0 <= i < |s| ==> 'a' <= s[i] <= 'z'
    ensures ParseInt(s) == NaN
  {
    assert TrimStart(s) == s;
    assert DigitOf(s[0], 10).None?;
  }
}
