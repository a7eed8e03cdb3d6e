/** Shared value-level helpers: an Option type standing for JavaScript's
    `null`/`undefined`, ASCII digit strings and their values, ASCII
    lower-casing, `Array.prototype.join`, the UTF-16 length of a string, and a sort by an integer key. */
module Common {

  /** `None` plays JavaScript's `null` (or `undefined`). */
  datatype Option<+T> = None | Some(value: T) {
    function GetOr(default: T): T {
      match this
      case Some(v) => v
      case None => default
    }
  }

  // ---------------------------------------------------------------------
  // Digits (the `\d` class of a JavaScript regular expression without the
  // `u` flag is exactly '0'..'9')

  predicate IsDigit(c: char) {
    '0' <= c <= '9'
  }

  /** `^\d+$`: one or more ASCII digits. */
  predicate IsDigits(s: string) {
    |s| > 0 && forall i :: 0 <= i < |s| ==> IsDigit(s[i])
  }

  /** Value of a decimal digit string, most significant digit first. */
  function DigitsValue(s: string): nat
    requires forall i :: 0 <= i < |s| ==> IsDigit(s[i])
  {
    if |s| == 0 then 0
    else
      assert IsDigit(s[|s| - 1]);
      DigitsValue(s[..|s| - 1]) * 10 + (s[|s| - 1] as int - '0' as int)
  }

  /** Decimal rendering of a natural number (JavaScript's `String(n)` for
      a non-negative integer). */
  function NatToString(n: nat): (s: string)
    ensures IsDigits(s)
    ensures DigitsValue(s) == n
    decreases n
  {
    var d := [(n % 10 + 48) as char];
    if n < 10 then d
    else
      var rest := NatToString(n / 10);
      assert (rest + d)[..|rest + d| - 1] == rest;
      rest + d
  }

  // ---------------------------------------------------------------------
  // ASCII case folding (`String.prototype.toLowerCase` on ASCII letters)

  function LowerChar(c: char): char {
    if 'A' <= c <= 'Z' then (c as int + 32) as char else c
  }

  function Lower(s: string): (r: string)
    ensures |r| == |s|
    ensures forall i :: 0 <= i < |s| ==> r[i] == LowerChar(s[i])
  {
    seq(|s|, i requires 0 <= i < |s| => LowerChar(s[i]))
  }

  // ---------------------------------------------------------------------
  // Array.prototype.join

  function Join(parts: seq<string>, sep: string): string {
    if |parts| == 0 then ""
    else if |parts| == 1 then parts[0]
    else parts[0] + sep + Join(parts[1..], sep)
  }

  // ---------------------------------------------------------------------
  // String.prototype.length, which counts UTF-16 code units

  /** A character above U+FFFF is a surrogate pair in UTF-16. */
  function Utf16Units(c: char): nat {
    if c as int > 0xFFFF then 2 else 1
  }

  /** `s.length` */
  function Utf16Length(s: string): (n: nat)
    ensures |s| <= n <= 2 * |s|
    ensures n == |s| <==> forall i :: 0 <= i < |s| ==> s[i] as int <= 0xFFFF
  {
    if |s| == 0 then 0
    else
      var init := s[..|s| - 1];
      assert forall i :: 0 <= i < |init| ==> init[i] == s[i];
      Utf16Length(init) + Utf16Units(s[|s| - 1])
  }

  // ---------------------------------------------------------------------
  // Sorting by an integer key, ascending

  ghost predicate SortedBy<T>(s: seq<T>, key: T -> int) {
    forall i, j :: 0 <= i < j < |s| ==> key(s[i]) <= key(s[j])
  }

  /** Putting an element no larger than the rest in front keeps order. */
  lemma ConsSorted<T>(h: T, t: seq<T>, key: T -> int)
    requires SortedBy(t, key)
    requires forall k :: 0 <= k < |t| ==> key(h) <= key(t[k])
    ensures SortedBy([h] + t, key)
  {
    var r := [h] + t;
    forall i, j | 0 <= i < j < |r|
      ensures key(r[i]) <= key(r[j])
    {
      assert r[j] == t[j - 1];
      if i > 0 {
        assert r[i] == t[i - 1];
      }
    }
  }

  /** Every element of a permutation of `rest + [x]` has a key at least
      `key(h)`, when `h` heads a sorted `[h] + rest` and `key(h) <= key(x)`. */
  lemma BoundedBelow<T>(h: T, rest: seq<T>, x: T, tail: seq<T>, key: T -> int)
    requires SortedBy([h] + rest, key)
    requires key(h) <= key(x)
    requires multiset(tail) == multiset(rest) + multiset{x}
    ensures forall k :: 0 <= k < |tail| ==> key(h) <= key(tail[k])
  {
    forall k | 0 <= k < |tail|
      ensures key(h) <= key(tail[k])
    {
      var t := tail[k];
      assert t in multiset(rest) + multiset{x};
      if t != x {
        assert t in multiset(rest);
        var m :| 0 <= m < |rest| && rest[m] == t;
        var s := [h] + rest;
        assert s[0] == h && s[m + 1] == t;
      }
    }
  }

  /** Inserts `x` into an already sorted sequence, after every element whose
      key is not larger. */
  function Insert<T>(x: T, s: seq<T>, key: T -> int): (r: seq<T>)
    requires SortedBy(s, key)
    ensures SortedBy(r, key)
    ensures multiset(r) == multiset(s) + multiset{x}
    ensures |r| == |s| + 1
  {
    if |s| == 0 then [x]
    else if key(x) < key(s[0]) then
      ConsSorted(x, s, key);
      [x] + s
    else
      var rest := s[1..];
      assert s == [s[0]] + rest;
      var tail := Insert(x, rest, key);
      BoundedBelow(s[0], rest, x, tail, key);
      ConsSorted(s[0], tail, key);
      [s[0]] + tail
  }

  /** Ascending sort by `key`: sorted, and a permutation of the input. */
  function SortBy<T>(s: seq<T>, key: T -> int): (r: seq<T>)
    ensures SortedBy(r, key)
    ensures multiset(r) == multiset(s)
    ensures |r| == |s|
  {
    if |s| == 0 then []
    else
      assert s == s[..|s| - 1] + [s[|s| - 1]];
      Insert(s[|s| - 1], SortBy(s[..|s| - 1], key), key)
  }
}
