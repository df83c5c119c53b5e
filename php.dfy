/**
 * The slice of PHP 8 value semantics the plugin's rules rely on: a value
 * datatype for the scalars, null and lists it compares, truthiness and
 * `empty`, the `(string)` and `(int)` casts, integer numeric strings, loose
 * comparison (`==`, `<`, `<=`), and the string functions `explode`,
 * `strpos`, `strncmp`, `substr` and `substr_count`.
 */
module Php {
  import opened Wrappers

  /** A PHP value as the plugin sees it; arrays appear only as lists (keys 0..n-1). */
  datatype Value = Null | Bool(b: bool) | Int(i: int) | Str(s: string) | List(items: seq<Value>)

  // ---------------------------------------------------------------------------
  // Truthiness

  /** PHP's `(bool)` conversion. */
  function ToBool(v: Value): bool {
    match v
    case Null => false
    case Bool(b) => b
    case Int(i) => i != 0
    case Str(s) => s != "" && s != "0"
    case List(xs) => |xs| > 0
  }

  /** PHP's `empty($v)` on a defined variable. */
  predicate IsEmpty(v: Value) {
    !ToBool(v)
  }

  // ---------------------------------------------------------------------------
  // Decimal digits

  predicate IsDigit(c: char) {
    '0' <= c <= '9'
  }

  predicate AllDigits(s: string) {
    forall i :: 0 <= i < |s| ==> IsDigit(s[i])
  }

  function Digit(d: nat): (c: char)
    requires d < 10
    ensures IsDigit(c)
  {
    (d + '0' as int) as char
  }

  function DigitValue(c: char): nat
    requires IsDigit(c)
  {
    c as int - '0' as int
  }

  /** The decimal spelling PHP gives a non-negative integer. */
  function NatToString(n: nat): (s: string)
    ensures |s| > 0 && AllDigits(s)
  {
    if n < 10 then [Digit(n)] else NatToString(n / 10) + [Digit(n % 10)]
  }

  /** The decimal spelling PHP gives any integer (`(string) $i`). */
  function IntToString(i: int): string {
    if i < 0 then "-" + NatToString(-i) else NatToString(i)
  }

  /** The number a string of decimal digits denotes. */
  function DigitsValue(d: string): nat
    requires AllDigits(d)
  {
    if |d| == 0 then 0 else DigitsValue(d[..|d| - 1]) * 10 + DigitValue(d[|d| - 1])
  }

  lemma {:induction false} DigitsValueOfNatToString(n: nat)
    ensures DigitsValue(NatToString(n)) == n
  {
    if n >= 10 {
      var s := NatToString(n);
      assert s[..|s| - 1] == NatToString(n / 10);
      DigitsValueOfNatToString(n / 10);
    }
  }

  // ---------------------------------------------------------------------------
  // Integer numeric strings and the (int) cast

  predicate IsWhitespace(c: char) {
    c == ' ' || c == '\t' || c == '\n' || c == '\r' || c == '\U{0B}' || c == '\U{0C}'
  }

  predicate AllWhitespace(s: string) {
    forall i :: 0 <= i < |s| ==> IsWhitespace(s[i])
  }

  /** The string without its leading whitespace. */
  function SkipWhitespace(s: string): (t: string)
    ensures |t| <= |s| && t == s[|s| - |t|..]
    ensures |t| > 0 ==> !IsWhitespace(t[0])
  {
    if |s| > 0 && IsWhitespace(s[0]) then SkipWhitespace(s[1..]) else s
  }

  /** The length of the longest prefix made of decimal digits. */
  function DigitPrefixLength(s: string): (n: nat)
    ensures n <= |s| && AllDigits(s[..n])
    ensures n < |s| ==> !IsDigit(s[n])
  {
    if |s| > 0 && IsDigit(s[0]) then
      var n := 1 + DigitPrefixLength(s[1..]);
      assert s[..n] == [s[0]] + s[1..][..n - 1];
      n
    else 0
  }

  function SignLength(t: string): nat {
    if |t| > 0 && (t[0] == '+' || t[0] == '-') then 1 else 0
  }

  /** The string with leading whitespace and an optional sign removed. */
  function Unsigned(s: string): string {
    var t := SkipWhitespace(s);
    if |t| > 0 && (t[0] == '+' || t[0] == '-') then t[1..] else t
  }

  predicate IsNegative(s: string) {
    var t := SkipWhitespace(s);
    |t| > 0 && t[0] == '-'
  }

  /**
   * PHP's integer numeric strings: optional leading whitespace, an optional
   * sign, at least one digit, optional trailing whitespace.
   */
  predicate IsNumericString(s: string) {
    var u := Unsigned(s);
    var n := DigitPrefixLength(u);
    n > 0 && AllWhitespace(u[n..])
  }

  /** PHP's `(int)` cast of a string: the leading integer, or 0 when there is none. */
  function StringToInt(s: string): int {
    var u := Unsigned(s);
    var v: int := DigitsValue(u[..DigitPrefixLength(u)]);
    if IsNegative(s) then -v else v
  }

  /** The digits of a decimal spelling are read back whole. */
  lemma DigitsReadBack(d: string, n: nat)
    requires d == NatToString(n)
    ensures DigitPrefixLength(d) == |d|
    ensures DigitsValue(d[..DigitPrefixLength(d)]) == n
  {
    assert d[..|d|] == d;
    DigitsValueOfNatToString(n);
  }

  /** `(int)` undoes `(string)` on integers, and the spelling is numeric. */
  lemma IntToStringRoundTrip(i: int)
    ensures StringToInt(IntToString(i)) == i
    ensures IsNumericString(IntToString(i))
  {
    var n: nat := if i < 0 then -i else i;
    var d := NatToString(n);
    DigitsReadBack(d, n);
    assert d[|d|..] == "";
    SpellingUnsigned(d, i < 0);
    assert IntToString(i) == if i < 0 then "-" + d else d;
  }

  /** A spelling's digits follow an optional minus sign and no whitespace. */
  lemma SpellingUnsigned(d: string, negative: bool)
    requires |d| > 0 && AllDigits(d)
    ensures var s := if negative then "-" + d else d;
      Unsigned(s) == d && IsNegative(s) == negative
  {
    assert !IsWhitespace(d[0]);
    if negative {
      assert SkipWhitespace("-" + d) == "-" + d;
      assert ("-" + d)[1..] == d;
    } else {
      assert SkipWhitespace(d) == d;
    }
  }

  /** Distinct integers have distinct decimal spellings. */
  lemma NatToStringInjective(m: nat, n: nat)
    requires NatToString(m) == NatToString(n)
    ensures m == n
  {
    IntToStringRoundTrip(m);
    IntToStringRoundTrip(n);
  }

  // ---------------------------------------------------------------------------
  // Casts

  /** PHP's `(string)` conversion (an array becomes "Array"). */
  function ToStr(v: Value): string {
    match v
    case Null => ""
    case Bool(b) => if b then "1" else ""
    case Int(i) => IntToString(i)
    case Str(s) => s
    case List(_) => "Array"
  }

  /** PHP's `(int)` conversion. */
  function ToInt(v: Value): int {
    match v
    case Null => 0
    case Bool(b) => if b then 1 else 0
    case Int(i) => i
    case Str(s) => StringToInt(s)
    case List(xs) => if |xs| == 0 then 0 else 1
  }

  // ---------------------------------------------------------------------------
  // Loose comparison (the `<=>` of PHP 8), from which ==, <, <= follow

  function Sign(x: int): int {
    if x < 0 then -1 else if x > 0 then 1 else 0
  }

  /** Byte-wise (here character-wise) string ordering, as strcmp. */
  function StrCmp(a: string, b: string): (r: int)
    ensures -1 <= r <= 1
    ensures r == 0 <==> a == b
  {
    if |a| == 0 && |b| == 0 then 0
    else if |a| == 0 then -1
    else if |b| == 0 then 1
    else if a[0] < b[0] then -1
    else if a[0] > b[0] then 1
    else
      var r := StrCmp(a[1..], b[1..]);
      assert r == 0 ==> a == [a[0]] + a[1..] == [b[0]] + b[1..] == b;
      assert a == b ==> a[1..] == b[1..];
      r
  }

  function BoolCmp(x: bool, y: bool): int {
    if x == y then 0 else if y then -1 else 1
  }

  /** Two strings compare numerically when both are numeric, otherwise as text. */
  function StringCompare(s: string, t: string): int {
    if IsNumericString(s) && IsNumericString(t) then Sign(StringToInt(s) - StringToInt(t))
    else StrCmp(s, t)
  }

  function Size(v: Value): nat {
    match v
    case List(xs) => 1 + SizeOfAll(xs)
    case _ => 1
  }

  function SizeOfAll(xs: seq<Value>): nat {
    if |xs| == 0 then 0 else Size(xs[0]) + SizeOfAll(xs[1..])
  }

  /**
   * `$a <=> $b` under PHP 8's rules: null against a string compares "" with
   * it; bool or null against anything compares truthiness; a shorter list is
   * smaller and lists of equal length compare element by element; a list is
   * greater than any scalar; an integer and a numeric string compare as
   * numbers, an integer and a non-numeric string as strings.
   */
  function Compare(a: Value, b: Value): (r: int)
    ensures -1 <= r <= 1
    decreases Size(a), 0
  {
    if a.Null? && b.Str? then StrCmp("", b.s)
    else if a.Str? && b.Null? then StrCmp(a.s, "")
    else if a.Null? || a.Bool? || b.Null? || b.Bool? then BoolCmp(ToBool(a), ToBool(b))
    else if a.List? && b.List? then
      if |a.items| != |b.items| then Sign(|a.items| - |b.items|)
      else CompareLists(a.items, b.items)
    else if a.List? then 1
    else if b.List? then -1
    else if a.Int? && b.Int? then Sign(a.i - b.i)
    else if a.Int? then
      if IsNumericString(b.s) then Sign(a.i - StringToInt(b.s)) else StrCmp(IntToString(a.i), b.s)
    else if b.Int? then
      if IsNumericString(a.s) then Sign(StringToInt(a.s) - b.i) else StrCmp(a.s, IntToString(b.i))
    else StringCompare(a.s, b.s)
  }

  /** Element-wise comparison of two lists of the same length: the first difference decides. */
  function CompareLists(xs: seq<Value>, ys: seq<Value>): (r: int)
    requires |xs| == |ys|
    ensures -1 <= r <= 1
    decreases SizeOfAll(xs), 1
  {
    if |xs| == 0 then 0
    else
      var c := Compare(xs[0], ys[0]);
      if c != 0 then c else CompareLists(xs[1..], ys[1..])
  }

  /** `$a == $b` */
  predicate LooseEquals(a: Value, b: Value) {
    Compare(a, b) == 0
  }

  /** `$a < $b` */
  predicate LooseLess(a: Value, b: Value) {
    Compare(a, b) == -1
  }

  /** `$a <= $b` */
  predicate LooseLessEq(a: Value, b: Value) {
    Compare(a, b) <= 0
  }

  lemma {:induction false} StrCmpAntisymmetric(a: string, b: string)
    ensures StrCmp(a, b) == -StrCmp(b, a)
  {
    if |a| > 0 && |b| > 0 && a[0] == b[0] {
      StrCmpAntisymmetric(a[1..], b[1..]);
    }
  }

  /**
   * Swapping the operands negates the comparison, so `$a > $b` (which PHP
   * evaluates as `$b < $a`) holds exactly when `$a <=> $b` is 1, and loose
   * equality is symmetric.
   */
  lemma {:induction false} CompareAntisymmetric(a: Value, b: Value)
    ensures Compare(a, b) == -Compare(b, a)
    decreases Size(a), 0
  {
    if a.List? && b.List? {
      if |a.items| == |b.items| {
        CompareListsAntisymmetric(a.items, b.items);
      }
    } else if a.Null? && b.Str? {
      StrCmpAntisymmetric("", b.s);
    } else if a.Str? && b.Null? {
      StrCmpAntisymmetric(a.s, "");
    } else if a.Int? && b.Str? {
      CompareIntStrAntisymmetric(a.i, b.s);
    } else if a.Str? && b.Int? {
      CompareIntStrAntisymmetric(b.i, a.s);
    } else if a.Str? && b.Str? {
      CompareStrStrAntisymmetric(a.s, b.s);
    }
  }

  lemma CompareIntStrAntisymmetric(i: int, s: string)
    ensures Compare(Int(i), Str(s)) == -Compare(Str(s), Int(i))
  {
    CompareIntString(i, s);
    if !IsNumericString(s) {
      StrCmpAntisymmetric(IntToString(i), s);
    }
  }

  lemma CompareIntString(i: int, s: string)
    ensures Compare(Int(i), Str(s))
            == if IsNumericString(s) then Sign(i - StringToInt(s)) else StrCmp(IntToString(i), s)
    ensures Compare(Str(s), Int(i))
            == if IsNumericString(s) then Sign(StringToInt(s) - i) else StrCmp(s, IntToString(i))
  {
    var a, b := Int(i), Str(s);
    assert !a.Null? && !a.Bool? && !b.Null? && !b.Bool? && !a.List? && !b.List? && !a.Str? && !b.Int?;
  }

  lemma CompareStrStrAntisymmetric(s: string, t: string)
    ensures Compare(Str(s), Str(t)) == -Compare(Str(t), Str(s))
  {
    CompareStrings(s, t);
    CompareStrings(t, s);
    StringCompareAntisymmetric(s, t);
  }

  lemma CompareStrings(s: string, t: string)
    ensures Compare(Str(s), Str(t)) == StringCompare(s, t)
  {
    var a, b := Str(s), Str(t);
    assert !a.Null? && !a.Bool? && !b.Null? && !b.Bool? && !a.List? && !b.List? && !a.Int? && !b.Int?;
  }

  lemma StringCompareAntisymmetric(s: string, t: string)
    ensures StringCompare(s, t) == -StringCompare(t, s)
  {
    if !(IsNumericString(s) && IsNumericString(t)) {
      StrCmpAntisymmetric(s, t);
    }
  }

  lemma {:induction false} CompareListsAntisymmetric(xs: seq<Value>, ys: seq<Value>)
    requires |xs| == |ys|
    ensures CompareLists(xs, ys) == -CompareLists(ys, xs)
    decreases SizeOfAll(xs), 1
  {
    if |xs| > 0 {
      CompareAntisymmetric(xs[0], ys[0]);
      CompareListsAntisymmetric(xs[1..], ys[1..]);
    }
  }

  // ---------------------------------------------------------------------------
  // String functions

  /** `$needle` occurs in `$haystack` at offset k. */
  predicate OccursAt(haystack: string, needle: string, k: nat) {
    k + |needle| <= |haystack| && haystack[k..k + |needle|] == needle
  }

  /** strpos from a given offset: the first occurrence at or after `from`. */
  function StrPosFrom(haystack: string, needle: string, from: nat): (r: Option<nat>)
    requires from <= |haystack|
    ensures r.Some? ==> from <= r.value && OccursAt(haystack, needle, r.value)
    ensures forall k: nat :: from <= k && (r.None? || k < r.value) ==> !OccursAt(haystack, needle, k)
    decreases |haystack| - from
  {
    if from + |needle| > |haystack| then None
    else if haystack[from..from + |needle|] == needle then Some(from)
    else if from == |haystack| then None
    else StrPosFrom(haystack, needle, from + 1)
  }

  /** `strpos($haystack, $needle)`, None standing for PHP's `false`. */
  function StrPos(haystack: string, needle: string): Option<nat> {
    StrPosFrom(haystack, needle, 0)
  }

  /** `strpos` finds something exactly when the needle is a substring. */
  lemma StrPosFindsSubstring(haystack: string, needle: string)
    ensures StrPos(haystack, needle).Some? <==> exists k: nat :: OccursAt(haystack, needle, k)
  {
    var r := StrPos(haystack, needle);
    if r.Some? {
      assert OccursAt(haystack, needle, r.value);
    }
  }

  /** `explode($separator, $s)` for a non-empty separator. */
  function Explode(separator: string, s: string): (parts: seq<string>)
    requires |separator| > 0
    ensures |parts| > 0
    decreases |s|
  {
    match StrPos(s, separator)
    case None => [s]
    case Some(k) => [s[..k]] + Explode(separator, s[k + |separator|..])
  }

  /** `implode($separator, $parts)` */
  function Implode(separator: string, parts: seq<string>): string
    requires |parts| > 0
  {
    if |parts| == 1 then parts[0] else parts[0] + separator + Implode(separator, parts[1..])
  }

  /** Exploding and joining again gives back the original string. */
  lemma {:induction false} ImplodeExplode(separator: string, s: string)
    requires |separator| > 0
    ensures Implode(separator, Explode(separator, s)) == s
    decreases |s|
  {
    match StrPos(s, separator)
    case None =>
    case Some(k) =>
      var rest := s[k + |separator|..];
      ImplodeExplode(separator, rest);
      assert s == s[..k] + separator + rest;
  }

  /** `substr_count($haystack, $needle)`: non-overlapping occurrences, left to right. */
  function SubstrCount(haystack: string, needle: string): nat
    requires |needle| > 0
  {
    |Explode(needle, haystack)| - 1
  }

  /** `substr($s, 0, $n)`: the first n characters, or the whole string when shorter. */
  function SubstrHead(s: string, n: nat): (r: string)
    ensures |r| <= n && r <= s
  {
    if n <= |s| then s[..n] else s
  }

  /** `strncmp($a, $b, $n) === 0`: the first n characters agree (binary safe). */
  predicate StrncmpEqual(a: string, b: string, n: nat) {
    a[..if n < |a| then n else |a|] == b[..if n < |b| then n else |b|]
  }

  /** `substr($s, $offset)` in PHP 8: a negative offset counts from the end, clamped at 0. */
  function Substr(s: string, offset: int): string {
    if offset > |s| then ""
    else if offset >= 0 then s[offset..]
    else if |s| + offset >= 0 then s[|s| + offset..]
    else s
  }

  /** `substr($l, -strlen($f)) === $f` */
  predicate SubstrEndsWith(l: string, f: string) {
    Substr(l, |l| - |f|) == f
  }

  /** The `startsWith` test, `strncmp($l, $f, strlen($f)) === 0`, is the prefix test. */
  lemma StrncmpIsPrefix(l: string, f: string)
    ensures StrncmpEqual(l, f, |f|) <==> |f| <= |l| && l[..|f|] == f
  {
    assert f[..|f|] == f;
  }

  /**
   * The `endsWith` test, `substr($l, strlen($l) - strlen($f)) === $f`, is
   * the suffix test, also when `$f` is longer than `$l`.
   */
  lemma SubstrIsSuffix(l: string, f: string)
    ensures SubstrEndsWith(l, f) <==> |f| <= |l| && l[|l| - |f|..] == f
  {
    if |f| > |l| {
      assert |Substr(l, |l| - |f|)| < |f|;
    }
  }

  // ---------------------------------------------------------------------------
  // Ordered arrays

  /** A PHP array: its entries in insertion order, each key once. */
  type Array<K, V> = seq<(K, V)>

  /** `array_keys`, as a set. */
  ghost function ArrayKeys<K, V>(a: Array<K, V>): set<K> {
    set e | e in a :: e.0
  }

  /** The keys of a non-empty array are its first key and the keys of the rest. */
  lemma ArrayKeysCons<K, V>(a: Array<K, V>)
    requires |a| > 0
    ensures ArrayKeys(a) == {a[0].0} + ArrayKeys(a[1..])
  {
    assert a[0] in a;
    assert forall e :: e in a ==> e == a[0] || e in a[1..];
    assert forall e :: e in a[1..] ==> e in a;
  }

  /** `$a[$k]`: the first entry of key k, None when there is none. */
  function ArrayGet<K(==), V>(a: Array<K, V>, k: K): Option<V> {
    if |a| == 0 then None
    else if a[0].0 == k then Some(a[0].1)
    else ArrayGet(a[1..], k)
  }

  /** A lookup finds a key exactly when the array has it, and then an entry of that key. */
  lemma {:induction false} ArrayGetMeaning<K, V>(a: Array<K, V>, k: K)
    ensures ArrayGet(a, k).Some? <==> k in ArrayKeys(a)
    ensures ArrayGet(a, k).Some? ==> (k, ArrayGet(a, k).value) in a
  {
    if |a| > 0 && a[0].0 != k {
      ArrayGetMeaning(a[1..], k);
      assert forall e :: e in a ==> e == a[0] || e in a[1..];
    }
  }

  /** `$a[$k] = $v`: an existing key keeps its place, a new one goes last. */
  function ArraySet<K(==,!new), V>(a: Array<K, V>, k: K, v: V): (r: Array<K, V>)
    ensures ArrayKeys(r) == ArrayKeys(a) + {k}
    ensures ArrayGet(r, k) == Some(v)
    ensures forall j :: j != k ==> ArrayGet(r, j) == ArrayGet(a, j)
  {
    if |a| == 0 then [(k, v)]
    else if a[0].0 == k then
      ArrayKeysCons(a);
      ArrayKeysCons([(k, v)] + a[1..]);
      assert ([(k, v)] + a[1..])[1..] == a[1..];
      [(k, v)] + a[1..]
    else
      var rest := ArraySet(a[1..], k, v);
      ArrayKeysCons(a);
      ArrayKeysCons([a[0]] + rest);
      assert ([a[0]] + rest)[1..] == rest;
      [a[0]] + rest
  }

  /** Assigning a key the array lacks appends the entry. */
  lemma {:induction false} ArraySetNewKey<K(!new), V>(a: Array<K, V>, k: K, v: V)
    requires k !in ArrayKeys(a)
    ensures ArraySet(a, k, v) == a + [(k, v)]
  {
    if |a| > 0 {
      ArrayKeysCons(a);
      ArraySetNewKey(a[1..], k, v);
      ArraySetSkips(a, k, v);
    }
  }

  lemma ArraySetSkips<K(!new), V>(a: Array<K, V>, k: K, v: V)
    requires |a| > 0 && a[0].0 != k && ArraySet(a[1..], k, v) == a[1..] + [(k, v)]
    ensures ArraySet(a, k, v) == a + [(k, v)]
  {
    assert ArraySet(a, k, v) == [a[0]] + ArraySet(a[1..], k, v);
    ConsSnoc(a, (k, v));
  }

  /** Splitting off the head commutes with appending at the end. */
  lemma ConsSnoc<T>(a: seq<T>, x: T)
    requires |a| > 0
    ensures [a[0]] + (a[1..] + [x]) == a + [x]
  {
    assert a == [a[0]] + a[1..];
  }

  /** Appending an entry changes a lookup only for a key not yet present. */
  lemma {:induction false} ArrayGetAppend<K, V>(a: Array<K, V>, e: (K, V), k: K)
    ensures ArrayGet(a + [e], k) == if ArrayGet(a, k).Some? then ArrayGet(a, k) else if k == e.0 then Some(e.1) else None
  {
    if |a| > 0 {
      assert (a + [e])[1..] == a[1..] + [e];
      if a[0].0 != k {
        ArrayGetAppend(a[1..], e, k);
        assert forall x :: x in a ==> x == a[0] || x in a[1..];
      }
    }
  }

  /** The array union `$a + $b`: the entries of a, then those of b whose key a lacks. */
  function ArrayUnion<K(==), V>(a: Array<K, V>, b: Array<K, V>): (r: Array<K, V>)
    ensures |a| <= |r| && r[..|a|] == a
  {
    if |b| == 0 then a
    else
      var init := ArrayUnion(a, b[..|b| - 1]);
      var e := b[|b| - 1];
      if ArrayGet(init, e.0).Some? then init else init + [e]
  }

  /** In a union every key of the left array keeps its left entry; the others come from the right. */
  lemma {:induction false} ArrayUnionGet<K, V>(a: Array<K, V>, b: Array<K, V>, k: K)
    ensures ArrayGet(ArrayUnion(a, b), k) == if ArrayGet(a, k).Some? then ArrayGet(a, k) else ArrayGet(b, k)
    decreases |b|
  {
    if |b| > 0 {
      var bi := b[..|b| - 1];
      var e := b[|b| - 1];
      var init := ArrayUnion(a, bi);
      ArrayUnionGet(a, bi, k);
      ArrayUnionGet(a, bi, e.0);
      assert b == bi + [e];
      ArrayGetAppend(bi, e, k);
      if ArrayGet(init, e.0).None? {
        ArrayGetAppend(init, e, k);
        assert ArrayUnion(a, b) == init + [e];
      } else {
        assert ArrayUnion(a, b) == init;
        if ArrayGet(a, k).None? && ArrayGet(bi, k).None? {
          assert k != e.0;
        }
      }
    }
  }

  /**
   * The value of the last entry of key k, None when there is none; for an
   * array whose keys are distinct, as every PHP array's are, the value of k.
   */
  function LastGet<K(==), V>(a: Array<K, V>, k: K): (r: Option<V>)
    ensures r.Some? <==> ArrayGet(a, k).Some?
  {
    if |a| == 0 then None
    else
      var later := LastGet(a[1..], k);
      if later.Some? then later else if a[0].0 == k then Some(a[0].1) else None
  }

  /** `array_merge($a, $b)` for string keys: b's entries assigned into a in order, so b wins. */
  function ArrayMerge<K(==,!new), V>(a: Array<K, V>, b: Array<K, V>): (r: Array<K, V>)
    ensures ArrayKeys(r) == ArrayKeys(a) + ArrayKeys(b)
    ensures forall k :: ArrayGet(r, k) == if ArrayGet(b, k).Some? then LastGet(b, k) else ArrayGet(a, k)
    decreases |b|
  {
    if |b| == 0 then a
    else
      ArrayKeysCons(b);
      ArrayMerge(ArraySet(a, b[0].0, b[0].1), b[1..])
  }

  /** Concatenation is associative. */
  lemma SeqAssoc<T>(a: seq<T>, b: seq<T>, c: seq<T>)
    ensures a + b + c == a + (b + c)
  {
  }

  /** The entries whose key passes `keep`, in their order: `unset` of keys, or `array_intersect_key`. */
  function KeepKeys<K(!new), V(!new)>(a: Array<K, V>, keep: K -> bool): (r: Array<K, V>)
    ensures forall e :: e in r <==> e in a && keep(e.0)
  {
    if |a| == 0 then []
    else
      var rest := KeepKeys(a[1..], keep);
      assert forall e :: e in a ==> e == a[0] || e in a[1..];
      if keep(a[0].0) then
        assert forall e :: e in [a[0]] + rest ==> e == a[0] || e in rest;
        [a[0]] + rest
      else rest
  }

  /** `array_filter($a, $keep)`: the entries whose value passes `keep`, with their keys, in their order. */
  function FilterValues<K(!new), V(!new)>(a: Array<K, V>, keep: V -> bool): (r: Array<K, V>)
    ensures forall e :: e in r <==> e in a && keep(e.1)
    ensures |r| <= |a|
  {
    if |a| == 0 then []
    else
      var rest := FilterValues(a[1..], keep);
      assert forall e :: e in a ==> e == a[0] || e in a[1..];
      if keep(a[0].1) then
        assert forall e :: e in [a[0]] + rest ==> e == a[0] || e in rest;
        [a[0]] + rest
      else rest
  }

  /** `xs` is `ys` with some entries left out, the others in their order. */
  predicate Subsequence<T(==)>(xs: seq<T>, ys: seq<T>)
    decreases |ys|
  {
    |xs| == 0 || (|ys| > 0 && if xs[0] == ys[0] then Subsequence(xs[1..], ys[1..]) else Subsequence(xs, ys[1..]))
  }

  /** Appending an entry to the longer sequence keeps a subsequence. */
  lemma {:induction false} SubsequenceSnocRight<T>(xs: seq<T>, ys: seq<T>, y: T)
    requires Subsequence(xs, ys)
    ensures Subsequence(xs, ys + [y])
    decreases |ys|
  {
    if |xs| > 0 {
      assert (ys + [y])[1..] == ys[1..] + [y];
      if xs[0] == ys[0] {
        SubsequenceSnocRight(xs[1..], ys[1..], y);
      } else {
        SubsequenceSnocRight(xs, ys[1..], y);
      }
    }
  }

  /** Appending the same entry to both sequences keeps a subsequence. */
  lemma {:induction false} SubsequenceSnoc<T>(xs: seq<T>, ys: seq<T>, y: T)
    requires Subsequence(xs, ys)
    ensures Subsequence(xs + [y], ys + [y])
    decreases |ys|
  {
    if |ys| > 0 {
      assert (ys + [y])[1..] == ys[1..] + [y];
      if |xs| == 0 {
        SubsequenceSnoc(xs, ys[1..], y);
      } else {
        assert (xs + [y])[1..] == xs[1..] + [y];
        if xs[0] == ys[0] {
          SubsequenceSnoc(xs[1..], ys[1..], y);
        } else {
          SubsequenceSnoc(xs, ys[1..], y);
        }
      }
    } else {
      assert |xs| == 0 && xs + [y] == ys + [y];
    }
  }

  /** Filtering keeps the order of the kept entries. */
  lemma {:induction false} KeepKeysKeepsOrder<K(!new), V(!new)>(a: Array<K, V>, keep: K -> bool)
    ensures Subsequence(KeepKeys(a, keep), a)
  {
    if |a| > 0 {
      KeepKeysKeepsOrder(a[1..], keep);
      var rest := KeepKeys(a[1..], keep);
      if keep(a[0].0) {
        assert ([a[0]] + rest)[1..] == rest;
      } else if |rest| > 0 {
        assert rest[0] in rest;
      }
    }
  }

  /** Filtering on values keeps the order of the kept entries. */
  lemma {:induction false} FilterValuesKeepsOrder<K(!new), V(!new)>(a: Array<K, V>, keep: V -> bool)
    ensures Subsequence(FilterValues(a, keep), a)
  {
    if |a| > 0 {
      FilterValuesKeepsOrder(a[1..], keep);
      var rest := FilterValues(a[1..], keep);
      if keep(a[0].1) {
        assert ([a[0]] + rest)[1..] == rest;
      } else if |rest| > 0 {
        assert rest[0] in rest;
      }
    }
  }

  /** A filtered array answers a lookup as the original for a kept key, and not at all for another. */
  lemma {:induction false} KeepKeysGet<K(!new), V(!new)>(a: Array<K, V>, keep: K -> bool, k: K)
    ensures ArrayGet(KeepKeys(a, keep), k) == if keep(k) then ArrayGet(a, k) else None
  {
    if |a| > 0 {
      KeepKeysGet(a[1..], keep, k);
    }
  }
}
