/**
  The few JavaScript value rules the loudness monitor relies on: truthiness of
  nullable strings and numbers, the `x || default` idiom, and
  `String.prototype.trim`.
 */
module JsValues {

  /** A nullable value: `null` and `undefined` are both `None`. */
  datatype Option<+T> = None | Some(value: T)

  /** The result of JavaScript's `Number(...)` conversion. Infinities are not modelled. */
  datatype JsNumber = NaN | Num(value: real)

  /** A nullable string is truthy when it is present and not the empty string. */
  predicate Truthy(s: Option<string>) {
    s.Some? && s.value != ""
  }

  /** A number is truthy when it is neither NaN nor zero. */
  predicate NumTruthy(n: JsNumber) {
    n.Num? && n.value != 0.0
  }

  /** `v || fallback` for a nullable string and a non-empty fallback. */
  function OrElse(v: Option<string>, fallback: string): (r: string)
    requires fallback != ""
    ensures r != ""
    ensures Truthy(v) ==> r == v.value
    ensures !Truthy(v) ==> r == fallback
  {
    if Truthy(v) then v.value else fallback
  }

  /** The characters `trim` removes: WhiteSpace and LineTerminator of ECMAScript. */
  predicate IsWhiteSpace(c: char) {
    var n := c as int;
    n == 0x09 || n == 0x0A || n == 0x0B || n == 0x0C || n == 0x0D || n == 0x20
    || n == 0xA0 || n == 0x1680 || (0x2000 <= n <= 0x200A) || n == 0x2028
    || n == 0x2029 || n == 0x202F || n == 0x205F || n == 0x3000 || n == 0xFEFF
  }

  /** Every character of `s` is white space. */
  predicate Blank(s: string) {
    forall i :: 0 <= i < |s| ==> IsWhiteSpace(s[i])
  }

  /** The number of leading white-space characters of `s`. */
  function LeadingBlank(s: string): (n: nat)
    ensures n <= |s|
    ensures forall i :: 0 <= i < n ==> IsWhiteSpace(s[i])
    ensures n < |s| ==> !IsWhiteSpace(s[n])
  {
    if s == [] || !IsWhiteSpace(s[0]) then 0 else 1 + LeadingBlank(s[1..])
  }

  /** The length of `s` without its trailing white space. */
  function KeptPrefix(s: string): (n: nat)
    ensures n <= |s|
    ensures forall i :: n <= i < |s| ==> IsWhiteSpace(s[i])
    ensures n > 0 ==> !IsWhiteSpace(s[n - 1])
  {
    if s == [] || !IsWhiteSpace(s[|s| - 1]) then |s| else KeptPrefix(s[..|s| - 1])
  }

  /** `String.prototype.trim`: drop leading, then trailing, white space. */
  function Trim(s: string): string {
    var t := s[LeadingBlank(s)..];
    t[..KeptPrefix(t)]
  }

  /** A string trims to the empty string exactly when it is all white space. */
  lemma TrimEmptyIffBlank(s: string)
    ensures Trim(s) == "" <==> Blank(s)
  {
    var n := LeadingBlank(s);
    var t := s[n..];
    if Trim(s) == "" {
      assert KeptPrefix(t) == 0;
      assert n == |s|;
    }
  }
}
