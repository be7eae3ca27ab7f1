/**
 * The pieces of JavaScript value semantics that the job-board front end
 * relies on: optional values (`undefined`/`null`), truthiness of strings,
 * rejected promises, `localStorage.getItem`, `${n}` for integers,
 * `Math.ceil` of a quotient, `String.prototype.includes`, `toUpperCase`
 * and `Array.prototype.filter`.
 */
module Js {

  /** A value that may be `undefined` or `null` (None). */
  datatype Option<+T> = None | Some(value: T) {
    /** `x ?? d` / `x || d` for a value that is truthy whenever present. */
    function GetOr(default: T): T {
      if Some? then value else default
    }
  }

  /** What a rejected promise or a `throw` carries. */
  datatype Thrown =
    | ErrorObject(isTypeError: bool, message: string)  // an `Error` instance (or a `TypeError`)
    | NonError                                          // any thrown value that is not an `Error`

  /** The settled state of an awaited promise. */
  datatype Fetch<+T> = Resolved(value: T) | Rejected(reason: Thrown)

  /** `!!s` for a string that may be missing: only a present, non-empty string is truthy. */
  predicate Truthy(s: Option<string>) {
    s.Some? && s.value != ""
  }

  /** `localStorage.getItem(key)`: `null` when the key is absent. */
  function Get(store: map<string, string>, key: string): (r: Option<string>)
    ensures r.Some? <==> key in store
    ensures r.Some? ==> r.value == store[key]
  {
    if key in store then Some(store[key]) else None
  }

  // ---------------------------------------------------------------------
  // Decimal rendering of integers, as a template literal `${n}` does it.
  // ---------------------------------------------------------------------

  predicate IsDigit(c: char) {
    '0' <= c <= '9'
  }

  predicate AllDigits(s: string) {
    forall i :: 0 <= i < |s| ==> IsDigit(s[i])
  }

  function DigitChar(d: nat): (c: char)
    requires d < 10
    ensures IsDigit(c)
  {
    ('0' as int + d) as char
  }

  function DigitValue(c: char): (d: nat)
    requires IsDigit(c)
    ensures d < 10
  {
    c as int - '0' as int
  }

  /** The decimal digits of `n`, most significant first, without leading zeros. */
  function NatToString(n: nat): (s: string)
    ensures |s| >= 1 && AllDigits(s)
    ensures |s| > 1 ==> s[0] != '0'
    decreases n
  {
    if n < 10 then [DigitChar(n)] else NatToString(n / 10) + [DigitChar(n % 10)]
  }

  /** `${i}` for an integer: a minus sign before the digits of a negative number. */
  function IntToString(i: int): (s: string)
    ensures |s| >= 1
    ensures i >= 0 ==> s == NatToString(i)
    ensures i < 0 ==> s == "-" + NatToString(-i)
  {
    if i < 0 then "-" + NatToString(-i) else NatToString(i)
  }

  /** Reads a string of decimal digits back as a number; the inverse of NatToString. */
  function ParseNat(s: string): nat
    requires AllDigits(s)
  {
    if s == [] then 0 else ParseNat(s[..|s| - 1]) * 10 + DigitValue(s[|s| - 1])
  }

  lemma {:induction false} ParseNatToString(n: nat)
    ensures ParseNat(NatToString(n)) == n
    decreases n
  {
    if n >= 10 {
      var prefix := NatToString(n / 10);
      var s := prefix + [DigitChar(n % 10)];
      assert s[..|s| - 1] == prefix;
      ParseNatToString(n / 10);
    }
  }

  /** Distinct numbers are rendered as distinct texts. */
  lemma NatToStringInjective(a: nat, b: nat)
    ensures NatToString(a) == NatToString(b) ==> a == b
  {
    ParseNatToString(a);
    ParseNatToString(b);
  }

  /**
   * When a digit string followed by text that starts with a non-digit
   * equals another such concatenation, the two digit strings are the same:
   * the first non-digit marks where the number ends.
   */
  lemma {:induction false} DigitsThenNonDigit(d1: string, t1: string, d2: string, t2: string)
    requires AllDigits(d1) && AllDigits(d2)
    requires |t1| >= 1 && !IsDigit(t1[0]) && |t2| >= 1 && !IsDigit(t2[0])
    requires d1 + t1 == d2 + t2
    ensures d1 == d2 && t1 == t2
  {
    var s := d1 + t1;
    assert forall k :: 0 <= k < |d1| ==> s[k] == d1[k];
    assert forall k :: 0 <= k < |d2| ==> s[k] == d2[k];
    assert s[|d1|] == t1[0] && s[|d2|] == t2[0];
    assert d1 == (d1 + t1)[..|d1|];
    assert d2 == (d2 + t2)[..|d2|];
  }

  // ---------------------------------------------------------------------
  // Arithmetic
  // ---------------------------------------------------------------------

  function Abs(x: int): (r: nat)
    ensures r == x || r == -x
  {
    if x < 0 then -x else x
  }

  /**
   * `Math.ceil(a / b)` for a non-negative integer `a` and a positive
   * integer `b`: the least multiple count `q` with `q * b >= a`.
   */
  function CeilDiv(a: nat, b: nat): (q: nat)
    requires b > 0
    ensures a <= q * b < a + b
  {
    var q := (a + b - 1) / b;
    var r := (a + b - 1) % b;
    assert a + b - 1 == q * b + r && 0 <= r < b;
    q
  }

  // ---------------------------------------------------------------------
  // Strings
  // ---------------------------------------------------------------------

  /** `s.includes(sub)`. */
  function Contains(s: string, sub: string): bool
  {
    if |sub| <= |s| && s[..|sub|] == sub then true
    else if s == [] then false
    else Contains(s[1..], sub)
  }

  /** `sub` occurs in `s` starting at position `i`. */
  predicate OccursAt(s: string, sub: string, i: nat) {
    i + |sub| <= |s| && s[i..i + |sub|] == sub
  }

  /** `includes` is true exactly when `sub` occurs somewhere in `s`. */
  lemma {:induction false} ContainsIffOccurs(s: string, sub: string)
    ensures Contains(s, sub) <==> exists i: nat :: OccursAt(s, sub, i)
    decreases |s|
  {
    if |sub| <= |s| && s[..|sub|] == sub {
      assert OccursAt(s, sub, 0);
    } else if s == [] {
    } else {
      ContainsIffOccurs(s[1..], sub);
      forall j: nat | OccursAt(s[1..], sub, j) ensures OccursAt(s, sub, j + 1) {
        var shifted, here := s[1..][j..j + |sub|], s[j + 1..j + 1 + |sub|];
        assert shifted == here by {
          forall k | 0 <= k < |sub| ensures shifted[k] == here[k] {}
        }
      }
      forall i: nat | OccursAt(s, sub, i) ensures i >= 1 && OccursAt(s[1..], sub, i - 1) {
        var shifted, here := s[1..][i - 1..i - 1 + |sub|], s[i..i + |sub|];
        assert shifted == here by {
          forall k | 0 <= k < |sub| ensures shifted[k] == here[k] {}
        }
      }
    }
  }

  predicate IsAsciiLower(c: char) {
    'a' <= c <= 'z'
  }

  /** `toUpperCase` on one character, restricted to the ASCII letters. */
  function UpperChar(c: char): char {
    if IsAsciiLower(c) then (c as int - 'a' as int + 'A' as int) as char else c
  }

  /**
   * `s.toUpperCase()` on ASCII: each lower-case letter becomes its
   * capital, every other character stays, and no lower-case letter is left.
   */
  function ToUpper(s: string): (r: string)
    ensures |r| == |s|
    ensures forall i :: 0 <= i < |s| && IsAsciiLower(s[i]) ==> r[i] as int == s[i] as int - 32
    ensures forall i :: 0 <= i < |s| && !IsAsciiLower(s[i]) ==> r[i] == s[i]
    ensures forall i :: 0 <= i < |r| ==> !IsAsciiLower(r[i])
  {
    seq(|s|, i requires 0 <= i < |s| => UpperChar(s[i]))
  }

  // ---------------------------------------------------------------------
  // Arrays
  // ---------------------------------------------------------------------

  /** `a` can be obtained from `b` by deleting elements: `b` lists `a` in order. */
  ghost predicate IsSubsequence<T>(a: seq<T>, b: seq<T>)
    decreases |b|
  {
    if a == [] then true
    else if b == [] then false
    else if a[0] == b[0] then IsSubsequence(a[1..], b[1..])
    else IsSubsequence(a, b[1..])
  }

  /** `xs.filter(keep)`. */
  function Filter<T(==,!new)>(xs: seq<T>, keep: T -> bool): (r: seq<T>)
    ensures |r| <= |xs|
    ensures forall x :: x in r <==> x in xs && keep(x)
    ensures forall x :: multiset(r)[x] == if keep(x) then multiset(xs)[x] else 0
    ensures IsSubsequence(r, xs)
    ensures (forall x :: x in xs ==> keep(x)) ==> r == xs
  {
    if xs == [] then []
    else
      assert xs == [xs[0]] + xs[1..];
      if keep(xs[0]) then [xs[0]] + Filter(xs[1..], keep)
      else Filter(xs[1..], keep)
  }
}
