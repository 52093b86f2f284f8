/** Shared vocabulary of the model: optional values, results, storage slots, bytes,
    numeric helpers with JavaScript's semantics, and sequence and text helpers. */
module Common {

  datatype Option<+T> = None | Some(value: T)

  datatype Result<+T, +E> = Ok(value: T) | Err(error: E)

  /** What reading one AsyncStorage key and JSON-parsing it yields: nothing stored (or the
      empty, falsy string), a read or a parse that throws, or a parsed value. A value written
      with JSON.stringify is read back as itself. */
  datatype Slot<+T> = Empty | Unreadable | Saved(value: T)

  newtype byte = x: int | 0 <= x < 256

  // ---------------------------------------------------------------------------------------
  // Numbers

  function Abs(x: real): (r: real)
    ensures r >= 0.0
    ensures r == x || r == -x
  {
    if x < 0.0 then -x else x
  }

  function Min(a: int, b: int): (r: int)
    ensures r <= a && r <= b
    ensures r == a || r == b
  {
    if a <= b then a else b
  }

  /** `Math.max(lo, Math.min(hi, x))`. */
  function Clamp(x: real, lo: real, hi: real): (r: real)
    requires lo <= hi
    ensures lo <= r <= hi
    ensures lo <= x <= hi ==> r == x
    ensures x < lo ==> r == lo
    ensures hi < x ==> r == hi
  {
    if x > hi then hi else if x < lo then lo else x
  }

  /** `Math.round`: the nearest integer, halves rounded towards positive infinity. */
  function Round(x: real): (r: int)
    ensures x - 0.5 < r as real <= x + 0.5
  {
    (x + 0.5).Floor
  }

  function Sum(xs: seq<real>): real
  {
    if xs == [] then 0.0 else xs[0] + Sum(xs[1..])
  }

  lemma {:induction false} SumAppend(xs: seq<real>, x: real)
    ensures Sum(xs + [x]) == Sum(xs) + x
  {
    if xs != [] {
      assert (xs + [x])[1..] == xs[1..] + [x];
      SumAppend(xs[1..], x);
    }
  }

  lemma {:induction false} SumZero(xs: seq<real>)
    requires forall i :: 0 <= i < |xs| ==> xs[i] == 0.0
    ensures Sum(xs) == 0.0
  {
    if xs != [] {
      SumZero(xs[1..]);
    }
  }

  lemma {:induction false} SumNonNegative(xs: seq<real>)
    requires forall i :: 0 <= i < |xs| ==> xs[i] >= 0.0
    ensures Sum(xs) >= 0.0
  {
    if xs != [] {
      SumNonNegative(xs[1..]);
    }
  }

  /** `arr.reduce((a, b) => a + b, 0) / arr.length`, and 0 for an empty array. */
  function Mean(xs: seq<real>): (r: real)
    ensures xs == [] ==> r == 0.0
    ensures (forall i :: 0 <= i < |xs| ==> xs[i] >= 0.0) ==> r >= 0.0
    ensures xs != [] ==> r * |xs| as real == Sum(xs)
  {
    if |xs| > 0 then
      SumNonNegativeWhenAll(xs);
      Sum(xs) / |xs| as real
    else 0.0
  }

  lemma SumNonNegativeWhenAll(xs: seq<real>)
    ensures (forall i :: 0 <= i < |xs| ==> xs[i] >= 0.0) ==> Sum(xs) >= 0.0
  {
    if forall i :: 0 <= i < |xs| ==> xs[i] >= 0.0 {
      SumNonNegative(xs);
    }
  }

  function Reals(xs: seq<int>): (r: seq<real>)
    ensures |r| == |xs|
    ensures forall i :: 0 <= i < |xs| ==> r[i] == xs[i] as real
  {
    seq(|xs|, i requires 0 <= i < |xs| => xs[i] as real)
  }

  // ---------------------------------------------------------------------------------------
  // Sequences

  /** `s.slice(-n)`: the last `n` elements, or all of them when there are fewer. */
  function LastN<T>(s: seq<T>, n: nat): (r: seq<T>)
    ensures |r| == Min(|s|, n)
    ensures forall i :: 0 <= i < |r| ==> r[i] == s[|s| - |r| + i]
  {
    if |s| <= n then s else s[|s| - n..]
  }

  /** Keeping the last `n` of a buffer and then the last `n` after one more arrival is the
      same as keeping the last `n` of all arrivals. */
  lemma LastNAppend<T>(s: seq<T>, x: T, n: nat)
    requires n > 0
    ensures LastN(LastN(s, n) + [x], n) == LastN(s + [x], n)
  {
    if |s| > n {
      assert LastN(s, n) + [x] == (s + [x])[|s| - n..];
      assert (s + [x])[|s| - n..][1..] == (s + [x])[|s| + 1 - n..];
    }
  }

  /** The index of the first element satisfying `p` (what `Array.prototype.find` locates). */
  function FirstMatch<T>(s: seq<T>, p: T -> bool): (r: Option<nat>)
    ensures r.Some? ==> r.value < |s| && p(s[r.value])
    ensures r.Some? ==> forall j :: 0 <= j < r.value ==> !p(s[j])
    ensures r.None? <==> forall j :: 0 <= j < |s| ==> !p(s[j])
  {
    if s == [] then None
    else if p(s[0]) then Some(0)
    else match FirstMatch(s[1..], p)
      case None => None
      case Some(i) => Some(i + 1)
  }

  /** `Array.prototype.find` as a loop over the elements, returning the index it stops at. */
  method Find<T>(s: seq<T>, p: T -> bool) returns (r: Option<nat>)
    ensures r == FirstMatch(s, p)
    ensures r.Some? ==> r.value < |s| && p(s[r.value]) && forall j :: 0 <= j < r.value ==> !p(s[j])
    ensures r.None? ==> forall j :: 0 <= j < |s| ==> !p(s[j])
  {
    var i := 0;
    while i < |s|
      invariant 0 <= i <= |s|
      invariant forall j :: 0 <= j < i ==> !p(s[j])
    {
      if p(s[i]) {
        return Some(i);
      }
      i := i + 1;
    }
    return None;
  }

  /** `Array.prototype.filter`. */
  function Filter<T>(s: seq<T>, p: T -> bool): (r: seq<T>)
    ensures |r| <= |s|
    ensures forall i :: 0 <= i < |r| ==> r[i] in s && p(r[i])
    ensures forall i :: 0 <= i < |s| && p(s[i]) ==> s[i] in r
  {
    if s == [] then [] else (if p(s[0]) then [s[0]] else []) + Filter(s[1..], p)
  }

  /** Filtering keeps the relative order of the elements it keeps. */
  lemma {:induction false} FilterConcat<T>(a: seq<T>, b: seq<T>, p: T -> bool)
    ensures Filter(a + b, p) == Filter(a, p) + Filter(b, p)
  {
    if a == [] {
      assert a + b == b;
    } else {
      assert (a + b)[0] == a[0];
      assert (a + b)[1..] == a[1..] + b;
      FilterConcat(a[1..], b, p);
    }
  }

  /** Filtering by a condition every element meets changes nothing. */
  lemma {:induction false} FilterAll<T>(s: seq<T>, p: T -> bool)
    requires forall i :: 0 <= i < |s| ==> p(s[i])
    ensures Filter(s, p) == s
  {
    if s != [] {
      FilterAll(s[1..], p);
    }
  }

  /** The ratio of a part to a non-empty whole lies in [0, 1]. */
  lemma Fraction(part: nat, whole: nat)
    requires 0 < whole && part <= whole
    ensures 0.0 <= part as real / whole as real <= 1.0
    ensures part == 0 ==> part as real / whole as real == 0.0
    ensures part == whole ==> part as real / whole as real == 1.0
  {
  }

  /** Filtering by a condition no element meets leaves nothing; by one every element meets,
      everything. */
  lemma FilterExtremes<T>(s: seq<T>, p: T -> bool)
    ensures (forall i :: 0 <= i < |s| ==> !p(s[i])) ==> Filter(s, p) == []
    ensures (forall i :: 0 <= i < |s| ==> p(s[i])) ==> Filter(s, p) == s
  {
    if forall i :: 0 <= i < |s| ==> p(s[i]) {
      FilterAll(s, p);
    }
    var r := Filter(s, p);
    if r != [] {
      assert p(r[0]) && r[0] in s;
    }
  }

  // ---------------------------------------------------------------------------------------
  // Text

  /** A JavaScript string is truthy exactly when it is not empty. */
  predicate Truthy(s: string)
  {
    s != ""
  }

  /** Template-literal rendering of an optional platform string: a missing one reads "null". */
  function Show(s: Option<string>): string
  {
    match s
    case None => "null"
    case Some(t) => t
  }

  function BoolText(b: bool): string
  {
    if b then "true" else "false"
  }

  function LowerChar(c: char): char
  {
    if 'A' <= c <= 'Z' then (c as int + 32) as char else c
  }

  /** `String.prototype.toLowerCase` on ASCII letters. */
  function ToLower(s: string): (r: string)
    ensures |r| == |s|
    ensures forall i :: 0 <= i < |s| ==> r[i] == LowerChar(s[i])
  {
    seq(|s|, i requires 0 <= i < |s| => LowerChar(s[i]))
  }

  /** `String.prototype.includes`: `sub` occurs somewhere in `s`. */
  predicate Contains(s: string, sub: string)
    decreases |s|
  {
    |sub| <= |s| && (s[..|sub|] == sub || (|s| > 0 && Contains(s[1..], sub)))
  }

  /** `sub` occurs in `s` starting at position `i`. */
  predicate OccursAt(s: string, sub: string, i: int)
  {
    0 <= i <= |s| - |sub| && s[i..i + |sub|] == sub
  }

  /** `Contains` agrees with the positional reading of substring occurrence. */
  lemma {:induction false} ContainsAt(s: string, sub: string)
    ensures Contains(s, sub) <==> exists i :: OccursAt(s, sub, i)
  {
    if |sub| <= |s| && s[..|sub|] == sub {
      assert OccursAt(s, sub, 0);
    } else if |sub| <= |s| && |s| > 0 {
      ContainsAt(s[1..], sub);
      if exists i :: OccursAt(s, sub, i) {
        var i :| OccursAt(s, sub, i);
        assert i != 0;
        assert s[1..][i - 1..i - 1 + |sub|] == sub;
        assert OccursAt(s[1..], sub, i - 1);
      }
      if Contains(s[1..], sub) {
        var i :| OccursAt(s[1..], sub, i);
        assert s[i + 1..i + 1 + |sub|] == sub;
        assert OccursAt(s, sub, i + 1);
      }
    }
  }

  lemma ContainsEmpty(s: string)
    ensures Contains(s, "")
  {
  }

  function DigitChar(d: nat): (c: char)
    requires d < 10
    ensures '0' <= c <= '9'
  {
    ('0' as int + d) as char
  }

  predicate IsDigit(c: char)
  {
    '0' <= c <= '9'
  }

  function DigitValue(c: char): (d: nat)
    requires IsDigit(c)
    ensures d < 10 && DigitChar(d) == c
  {
    c as int - '0' as int
  }

  /** Decimal text of a natural number, as `String(n)` prints it. */
  function NatToString(n: nat): (s: string)
    ensures |s| > 0
    ensures forall i :: 0 <= i < |s| ==> IsDigit(s[i])
    ensures n > 0 ==> s[0] != '0'
  {
    if n < 10 then [DigitChar(n)] else NatToString(n / 10) + [DigitChar(n % 10)]
  }

  /** Decimal text of an integer, as a template literal prints it. */
  function IntToString(i: int): (s: string)
    ensures |s| > 0
  {
    if i < 0 then "-" + NatToString(-i) else NatToString(i)
  }

  /** The value of a non-empty run of decimal digits. */
  function DigitsValue(s: string): nat
    requires forall i :: 0 <= i < |s| ==> IsDigit(s[i])
  {
    if s == [] then 0 else DigitsValue(s[..|s| - 1]) * 10 + DigitValue(s[|s| - 1])
  }

  /** The longest prefix of `s` made of decimal digits. */
  function DigitPrefix(s: string): (r: string)
    ensures |r| <= |s| && r == s[..|r|]
    ensures forall i :: 0 <= i < |r| ==> IsDigit(s[i])
    ensures |r| < |s| ==> !IsDigit(s[|r|])
  {
    if s == [] || !IsDigit(s[0]) then "" else [s[0]] + DigitPrefix(s[1..])
  }

  /** `s.replace(/\D/g, '')`: the digits of `s`, in order. */
  function DigitsOnly(s: string): (r: string)
    ensures forall i :: 0 <= i < |r| ==> IsDigit(r[i])
  {
    Filter(s, IsDigit)
  }

  predicate IsSpace(c: char)
  {
    c == ' ' || c == '\t' || c == '\n' || c == '\r'
  }

  function TrimStart(s: string): string
  {
    if s != [] && IsSpace(s[0]) then TrimStart(s[1..]) else s
  }

  /** Decimal `parseInt`: leading white space, an optional sign, then the longest run of
      digits; `None` stands for NaN (no digit at all). */
  function ParseInt(s: string): (r: Option<int>)
  {
    var t := TrimStart(s);
    var negative := t != [] && t[0] == '-';
    var body := if t != [] && (t[0] == '-' || t[0] == '+') then t[1..] else t;
    var digits := DigitPrefix(body);
    var value: int := DigitsValue(digits);
    if digits == "" then None else Some(if negative then -value else value)
  }

  lemma {:induction false} DigitsValueOfNat(n: nat)
    ensures DigitsValue(NatToString(n)) == n
  {
    if n >= 10 {
      var s := NatToString(n);
      assert s[..|s| - 1] == NatToString(n / 10);
      DigitsValueOfNat(n / 10);
    }
  }

  lemma {:induction false} DigitPrefixOfDigits(s: string)
    requires forall i :: 0 <= i < |s| ==> IsDigit(s[i])
    ensures DigitPrefix(s) == s
  {
    if s != [] {
      DigitPrefixOfDigits(s[1..]);
    }
  }

  /** `parseInt` reads back what `String` printed. */
  lemma ParseIntOfNatToString(n: nat)
    ensures ParseInt(NatToString(n)) == Some(n)
  {
    var s := NatToString(n);
    assert !IsSpace(s[0]);
    assert TrimStart(s) == s;
    DigitPrefixOfDigits(s);
    DigitsValueOfNat(n);
  }

  /** The text before the first occurrence of `c` (`s.split(c)[0]`). */
  function BeforeFirst(s: string, c: char): (r: string)
    ensures |r| <= |s| && r == s[..|r|]
    ensures c !in r
    ensures |r| < |s| ==> s[|r|] == c
  {
    if s == [] || s[0] == c then "" else [s[0]] + BeforeFirst(s[1..], c)
  }
}
