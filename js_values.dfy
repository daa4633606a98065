/**
 * The few pieces of JavaScript semantics the checkout components rely on:
 * optional values, truthiness, conversion to string, the `\s` character
 * class of regular expressions and `indexOf` on strings.
 *
 * Strings are sequences of Unicode characters; JavaScript counts UTF-16
 * code units instead, which only differs for characters outside the Basic
 * Multilingual Plane.
 */
module JsValues {

  datatype Option<+T> = None | Some(value: T)

  /**
   * A value held in one of the component's form records. The inputs store
   * strings; the bank buttons store the bank's numeric code; a key that was
   * never written reads as `undefined`.
   */
  datatype JsValue = Undefined | Text(text: string) | Num(n: int)

  /** JavaScript truthiness: the empty string, 0 and undefined are falsy. */
  predicate Truthy(v: JsValue)
  {
    match v
    case Undefined => false
    case Text(t) => t != ""
    case Num(n) => n != 0
  }

  /** The string a regular expression is matched against for a value (ToString). */
  function ToText(v: JsValue): string
  {
    match v
    case Undefined => "undefined"
    case Text(t) => t
    case Num(n) => if n < 0 then "-" + DecimalText(-n) else DecimalText(n)
  }

  /** Decimal digits of a natural number, without leading zeros. */
  function DecimalText(n: nat): (r: string)
    ensures |r| > 0
    ensures forall i :: 0 <= i < |r| ==> '0' <= r[i] <= '9'
  {
    var d := [('0' as int + n % 10) as char];
    if n < 10 then d else DecimalText(n / 10) + d
  }

  /** The LineTerminator code points of ECMAScript (section 12.3 of ECMA-262). */
  predicate IsLineTerminator(c: char)
  {
    c == '\n' || c == '\r' || c == '\U{2028}' || c == '\U{2029}'
  }

  /**
   * The characters matched by `\s`: the WhiteSpace code points of ECMA-262
   * section 12.2 (tab, vertical tab, form feed, ZWNBSP and the Unicode
   * space separators) together with the line terminators.
   */
  predicate IsJsWhitespace(c: char)
  {
    || IsLineTerminator(c)
    || c == '\t' || c == '\U{000B}' || c == '\U{000C}' || c == ' '
    || c == '\U{00A0}' || c == '\U{1680}'
    || ('\U{2000}' <= c <= '\U{200A}')
    || c == '\U{202F}' || c == '\U{205F}' || c == '\U{3000}' || c == '\U{FEFF}'
  }

  predicate NoWhitespace(s: string)
  {
    forall i :: 0 <= i < |s| ==> !IsJsWhitespace(s[i])
  }

  /** `s.startsWith(prefix)`. */
  predicate StartsWith(s: string, prefix: string)
  {
    |prefix| <= |s| && s[..|prefix|] == prefix
  }

  /**
   * Position of the first `c` in `s`, or `|s|` when there is none
   * (`indexOf` with -1 replaced by the length).
   */
  function IndexOf(s: string, c: char): (k: nat)
    ensures k <= |s|
    ensures k < |s| ==> s[k] == c
    ensures forall i :: 0 <= i < k ==> s[i] != c
  {
    if s == [] then 0
    else if s[0] == c then 0
    else 1 + IndexOf(s[1..], c)
  }

  /** The first occurrence is unique: any `c` preceded by no other `c` is the one IndexOf finds. */
  lemma IndexOfIsFirst(s: string, c: char, k: nat)
    requires k < |s| && s[k] == c
    requires forall i :: 0 <= i < k ==> s[i] != c
    ensures IndexOf(s, c) == k
  {
  }
}
