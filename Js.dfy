/** Values and conventions of the JavaScript runtime that the forms and the
    service rely on: optional values, numbers that may be NaN, truthiness of
    strings and numbers, `String.prototype.trim` and `String.prototype.includes`. */
module Js {

  datatype Option<T> = None | Some(value: T) {
    /** `x || fallback` / `x ?? fallback` on an optional value. */
    function GetOr(fallback: T): T {
      match this
      case Some(v) => v
      case None => fallback
    }
  }

  /** A synchronous outcome: the value produced, or the reason it was refused. */
  datatype Result<T, E> = Ok(value: T) | Err(error: E)

  /** A JavaScript number as seen by these components: NaN or a finite value.
      Rounding and infinities are not modelled. */
  datatype Num = NaN | Num(value: real)

  /** The text-to-number conversions (`parseFloat`, `Number`) are left abstract:
      every operation that converts text takes the converter as a parameter. */
  type Parser = string -> Num

  /** The number-to-text conversion (`Number.prototype.toString`), left abstract. */
  type Printer = Num -> string

  /** A number is truthy unless it is 0 or NaN. */
  predicate Truthy(n: Num) {
    n.Num? && n.value != 0.0
  }

  /** `n <= x`: false whenever `n` is NaN. */
  predicate AtMost(n: Num, x: real) {
    n.Num? && n.value <= x
  }

  /** `n < x`: false whenever `n` is NaN. */
  predicate Below(n: Num, x: real) {
    n.Num? && n.value < x
  }

  /** `n >= x`: false whenever `n` is NaN. */
  predicate AtLeast(n: Num, x: real) {
    n.Num? && n.value >= x
  }

  /** `s || undefined` for a string: the empty string is falsy. */
  function NonEmpty(s: string): (r: Option<string>)
    ensures r.None? <==> s == ""
    ensures r.Some? ==> r.value == s
  {
    if s == "" then None else Some(s)
  }

  /** `o || null` for an optional string: absent and empty both become null. */
  function StringOrNull(o: Option<string>): (r: Option<string>)
    ensures r.None? <==> (o.None? || o.value == "")
    ensures r.Some? ==> o == r && r.value != ""
  {
    match o
    case None => None
    case Some(s) => NonEmpty(s)
  }

  /** `o || null` for an optional number: absent, 0 and NaN all become null. */
  function NumOrNull(o: Option<Num>): (r: Option<real>)
    ensures r.None? <==> (o.None? || !Truthy(o.value))
    ensures r.Some? ==> o == Some(Num(r.value)) && r.value != 0.0
  {
    match o
    case None => None
    case Some(n) => if Truthy(n) then Some(n.value) else None
  }

  /** `n || fallback` for a number. */
  function NumOr(n: Num, fallback: real): (r: real)
    ensures Truthy(n) ==> n == Num(r)
    ensures !Truthy(n) ==> r == fallback
  {
    if Truthy(n) then n.value else fallback
  }

  /** The white-space and line-terminator characters that `trim` removes
      (the Unicode space separators beyond U+00A0 are not listed). */
  predicate IsSpace(c: char) {
    c == ' ' || c == '\t' || c == '\n' || c == '\r' || c == '\U{B}' || c == '\U{C}'
    || c == '\U{A0}' || c == '\U{FEFF}' || c == '\U{2028}' || c == '\U{2029}'
  }

  /** Every character of `s` is white space (vacuously so for ""). */
  predicate IsBlank(s: string) {
    forall k :: 0 <= k < |s| ==> IsSpace(s[k])
  }

  /** `trimStart`: drops the leading white space and nothing else. */
  function TrimStart(s: string): (r: string)
    ensures |r| <= |s| && r == s[|s| - |r|..]
    ensures forall k :: 0 <= k < |s| - |r| ==> IsSpace(s[k])
    ensures r == [] || !IsSpace(r[0])
  {
    if |s| > 0 && IsSpace(s[0]) then TrimStart(s[1..]) else s
  }

  /** `trimEnd`: drops the trailing white space and nothing else. */
  function TrimEnd(s: string): (r: string)
    ensures |r| <= |s| && r == s[..|r|]
    ensures forall k :: |r| <= k < |s| ==> IsSpace(s[k])
    ensures r == [] || !IsSpace(r[|r| - 1])
  {
    if |s| > 0 && IsSpace(s[|s| - 1]) then TrimEnd(s[..|s| - 1]) else s
  }

  /** `trim`: both ends. */
  function Trim(s: string): (r: string)
  {
    TrimEnd(TrimStart(s))
  }

  /** `!s.trim()`: the trimmed text is empty exactly when the text is blank;
      otherwise the trimmed text is a slice of `s` that starts and ends with
      a character that is not white space. */
  lemma TrimEmptyIffBlank(s: string)
    ensures Trim(s) == "" <==> IsBlank(s)
    ensures Trim(s) != "" ==> !IsSpace(Trim(s)[0]) && !IsSpace(Trim(s)[|Trim(s)| - 1])
    ensures |Trim(s)| <= |s|
  {
    var t := TrimStart(s);
    if Trim(s) == "" {
      assert t == [];
    } else {
      var r := Trim(s);
      assert r[0] == t[0];
    }
  }

  /** Trimming twice is trimming once. */
  lemma TrimIdempotent(s: string)
    ensures Trim(Trim(s)) == Trim(s)
  {
    var r := Trim(s);
    TrimEmptyIffBlank(s);
    if r != "" {
      assert TrimStart(r) == r;
      assert TrimEnd(r) == r;
    }
  }

  /** `s.includes(sub)`. */
  predicate Contains(s: string, sub: string)
    decreases |s|
  {
    |sub| <= |s| && (s[..|sub|] == sub || (|s| > |sub| && Contains(s[1..], sub)))
  }

  /** `sub` occurs at position `i` of `s`, so `s.includes(sub)`. */
  lemma {:induction false} ContainsAt(s: string, sub: string, i: nat)
    requires i + |sub| <= |s| && s[i..i + |sub|] == sub
    ensures Contains(s, sub)
    decreases i
  {
    if i > 0 {
      assert s[1..][i - 1..i - 1 + |sub|] == sub;
      ContainsAt(s[1..], sub, i - 1);
    } else {
      assert s[..|sub|] == sub;
    }
  }

  /** A text that occurs in `b` occurs in any text built around `b`. */
  lemma ContainsInside(a: string, b: string, c: string, sub: string)
    requires Contains(b, sub)
    ensures Contains(a + b + c, sub)
  {
    var i := ContainsWitness(b, sub);
    var s := a + b + c;
    assert s[|a| + i..|a| + i + |sub|] == b[i..i + |sub|];
    ContainsAt(s, sub, |a| + i);
  }

  /** Each piece of a concatenation of three occurs in it. */
  lemma ContainsPiece(a: string, b: string, c: string)
    ensures Contains(a + b + c, b)
  {
    var s := a + b + c;
    assert s[|a|..|a| + |b|] == b;
    ContainsAt(s, b, |a|);
  }

  /** `s.includes(sub)` needs every character of `sub` in `s`; so a character
      of `sub` that `s` lacks rules it out. */
  lemma ContainsNeedsChar(s: string, sub: string, ch: char)
    requires ch in sub
    ensures Contains(s, sub) ==> ch in s
  {
    if Contains(s, sub) {
      var i := ContainsWitness(s, sub);
      var k :| 0 <= k < |sub| && sub[k] == ch;
      assert s[i + k] == s[i..i + |sub|][k];
    }
  }

  /** The position at which `sub` occurs, when `s.includes(sub)`. */
  lemma {:induction false} ContainsWitness(s: string, sub: string) returns (i: nat)
    requires Contains(s, sub)
    ensures i + |sub| <= |s| && s[i..i + |sub|] == sub
    decreases |s|
  {
    if |sub| <= |s| && s[..|sub|] == sub {
      i := 0;
    } else {
      var j := ContainsWitness(s[1..], sub);
      assert s[1 + j..1 + j + |sub|] == s[1..][j..j + |sub|];
      i := j + 1;
    }
  }
}
