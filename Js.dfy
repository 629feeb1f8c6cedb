/**
  The handful of JavaScript behaviours the handlers rely on, stated over
  Dafny values: a missing-or-empty fallback (`v || d`), ASCII
  `toUpperCase`, the decimal text a template literal gives a number, and the
  names every plain object inherits from `Object.prototype`.
 */
module Js {

  datatype Option<+T> = None | Some(value: T)

  /** `v || d` where `v` is a string that may be missing: both a missing
      value and the empty string are falsy and fall back to `d`. */
  function OrDefault(v: Option<string>, d: string): (r: string)
    ensures v.Some? && v.value != "" ==> r == v.value
    ensures v.None? || v.value == "" ==> r == d
    ensures d != "" ==> r != ""
  {
    if v.Some? && v.value != "" then v.value else d
  }

  predicate IsLower(c: char) {
    'a' <= c <= 'z'
  }

  function UpperChar(c: char): (u: char)
    ensures !IsLower(u)
    ensures !IsLower(c) ==> u == c
  {
    if IsLower(c) then (c as int - 32) as char else c
  }

  /** `String.prototype.toUpperCase`, restricted to ASCII letters. */
  function ToUpper(s: string): (r: string)
    ensures |r| == |s|
    ensures forall i :: 0 <= i < |s| ==> r[i] == UpperChar(s[i])
  {
    if s == [] then [] else [UpperChar(s[0])] + ToUpper(s[1..])
  }

  lemma ToUpperIdempotent(s: string)
    ensures ToUpper(ToUpper(s)) == ToUpper(s)
  {
  }

  lemma ToUpperHasNoLower(s: string)
    ensures 'e' !in ToUpper(s) && 'o' !in ToUpper(s)
  {
  }

  /** The property names a plain JavaScript object inherits from
      `Object.prototype`; reading one of them off an object literal that
      lacks it as an own key yields a truthy value. */
  const PrototypeKeys: set<string> := {
    "constructor", "__defineGetter__", "__defineSetter__", "hasOwnProperty",
    "__lookupGetter__", "__lookupSetter__", "isPrototypeOf",
    "propertyIsEnumerable", "toString", "valueOf", "__proto__", "toLocaleString"
  }

  /** Every inherited name holds a lower-case `e` or `o`, so no upper-cased
      string can name one: a lookup by an upper-cased key only ever finds own
      keys. */
  lemma UpperCaseNeverInherited(s: string)
    ensures ToUpper(s) !in PrototypeKeys
  {
    ToUpperHasNoLower(s);
    forall k | k in PrototypeKeys
      ensures 'e' in k || 'o' in k
    {
      if k == "constructor" { assert k[1] == 'o'; }
      else if k == "__defineGetter__" { assert k[3] == 'e'; }
      else if k == "__defineSetter__" { assert k[3] == 'e'; }
      else if k == "hasOwnProperty" { assert k[8] == 'o'; }
      else if k == "__lookupGetter__" { assert k[3] == 'o'; }
      else if k == "__lookupSetter__" { assert k[3] == 'o'; }
      else if k == "isPrototypeOf" { assert k[4] == 'o'; }
      else if k == "propertyIsEnumerable" { assert k[2] == 'o'; }
      else if k == "toString" { assert k[1] == 'o'; }
      else if k == "valueOf" { assert k[4] == 'e'; }
      else if k == "__proto__" { assert k[4] == 'o'; }
      else { assert k == "toLocaleString"; assert k[1] == 'o'; }
    }
  }

  /** A character outside the Basic Multilingual Plane, which UTF-16
      stores as a surrogate pair. */
  predicate IsAstral(c: char) {
    c as int >= 0x1_0000
  }

  function Utf16Units(c: char): nat {
    if IsAstral(c) then 2 else 1
  }

  /** `String.prototype.length`: the number of UTF-16 code units, which
      counts every astral character twice. */
  function Utf16Length(s: string): (n: nat)
    ensures |s| <= n <= 2 * |s|
  {
    if s == [] then 0 else Utf16Units(s[0]) + Utf16Length(s[1..])
  }

  /** On text inside the Basic Multilingual Plane the length is the
      character count. */
  lemma {:induction false} BmpLengthIsCount(s: string)
    requires forall i :: 0 <= i < |s| ==> !IsAstral(s[i])
    ensures Utf16Length(s) == |s|
  {
    if s != [] {
      BmpLengthIsCount(s[1..]);
    }
  }

  /** On text made only of astral characters the length is twice the
      character count. */
  lemma {:induction false} AstralLengthDoubles(s: string)
    requires forall i :: 0 <= i < |s| ==> IsAstral(s[i])
    ensures Utf16Length(s) == 2 * |s|
  {
    if s != [] {
      AstralLengthDoubles(s[1..]);
    }
  }

  function DigitChar(d: nat): (c: char)
    requires d < 10
    ensures '0' <= c <= '9'
  {
    ('0' as int + d) as char
  }

  /** The decimal text `${n}` of a non-negative integer. */
  function Decimal(n: nat): (s: string)
    ensures |s| >= 1
    ensures n < 10 <==> |s| == 1
    ensures forall i :: 0 <= i < |s| ==> '0' <= s[i] <= '9'
  {
    if n < 10 then [DigitChar(n)] else Decimal(n / 10) + [DigitChar(n % 10)]
  }

  /** Reads a string of decimal digits back as a number. */
  function ParseDecimal(s: string): Option<nat>
  {
    if |s| == 0 then None
    else
      var c := s[|s| - 1];
      if !('0' <= c <= '9') then None
      else if |s| == 1 then Some(c as int - '0' as int)
      else match ParseDecimal(s[..|s| - 1])
        case None => None
        case Some(v) => Some(v * 10 + (c as int - '0' as int))
  }

  lemma {:induction false} ParseDecimalInverts(n: nat)
    ensures ParseDecimal(Decimal(n)) == Some(n)
  {
    if n >= 10 {
      ParseDecimalInverts(n / 10);
      var s := Decimal(n);
      assert s[..|s| - 1] == Decimal(n / 10);
    }
  }
}
