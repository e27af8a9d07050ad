/** The JavaScript string built-ins the application relies on: `split` on one character,
    `join`, `trim`, `includes`/`indexOf`, `toLowerCase`, `slice(-n)` and the decimal
    rendering of an integer (`String(n)`, `n.toString()`). */
module Text {

  /** Number of occurrences of `c` in `s`. */
  function Count(s: string, c: char): nat {
    if s == [] then 0 else (if s[0] == c then 1 else 0) + Count(s[1..], c)
  }

  /** `s.split(c)` for a one-character separator: the maximal runs between separators,
      so there is always one more part than separators. */
  function Split(s: string, c: char): (parts: seq<string>)
    ensures |parts| == Count(s, c) + 1
    ensures forall k :: 0 <= k < |parts| ==> c !in parts[k]
  {
    if s == [] then [""]
    else
      var rest := Split(s[1..], c);
      if s[0] == c then [""] + rest
      else [[s[0]] + rest[0]] + rest[1..]
  }

  /** `xs.join(sep)`. */
  function Join(xs: seq<string>, sep: string): string {
    if |xs| == 0 then ""
    else if |xs| == 1 then xs[0]
    else xs[0] + sep + Join(xs[1..], sep)
  }

  /** A join of two or more parts opens with the first part and the separator. */
  lemma JoinCons(x: string, xs: seq<string>, sep: string)
    requires |xs| >= 1
    ensures Join([x] + xs, sep) == x + sep + Join(xs, sep)
  {
    assert ([x] + xs)[1..] == xs;
  }

  /** Joining the parts of a split with the separator gives back the original text. */
  lemma {:induction false} JoinSplit(s: string, c: char)
    ensures Join(Split(s, c), [c]) == s
  {
    if s != [] {
      var rest := Split(s[1..], c);
      JoinSplit(s[1..], c);
      if s[0] == c {
        assert Split(s, c) == [""] + rest;
        assert (([""] + rest)[1..]) == rest;
      } else {
        var parts := Split(s, c);
        assert parts == [[s[0]] + rest[0]] + rest[1..];
        if |rest| == 1 {
          assert Join(parts, [c]) == [s[0]] + rest[0];
        } else {
          assert parts[1..] == rest[1..];
          assert Join(rest, [c]) == rest[0] + [c] + Join(rest[1..], [c]);
        }
      }
    }
  }

  /** Splitting text that starts with a separator-free block `a` glues `a` onto the first part. */
  lemma {:induction false} SplitPrefix(a: string, t: string, c: char)
    requires c !in a
    ensures Split(a + t, c) == [a + Split(t, c)[0]] + Split(t, c)[1..]
  {
    if a == [] {
      assert a + t == t;
      var S := Split(t, c);
      assert a + S[0] == S[0];
      assert S == [S[0]] + S[1..];
    } else {
      assert (a + t)[0] == a[0];
      assert (a + t)[1..] == a[1..] + t;
      SplitPrefix(a[1..], t, c);
      assert [a[0]] + (a[1..] + Split(t, c)[0]) == a + Split(t, c)[0];
    }
  }

  /** Splitting a join of separator-free parts gives the parts back. */
  lemma {:induction false} SplitJoin(xs: seq<string>, c: char)
    requires |xs| >= 1
    requires forall k :: 0 <= k < |xs| ==> c !in xs[k]
    ensures Split(Join(xs, [c]), c) == xs
  {
    if |xs| == 1 {
      SplitPrefix(xs[0], "", c);
      assert xs[0] + "" == xs[0];
    } else {
      var u := Join(xs[1..], [c]);
      SplitJoin(xs[1..], c);
      assert Join(xs, [c]) == xs[0] + ([c] + u);
      SplitPrefix(xs[0], [c] + u, c);
      assert ([c] + u)[1..] == u;
      assert Split([c] + u, c) == [""] + Split(u, c);
      assert Split([c] + u, c)[0] == "" && Split([c] + u, c)[1..] == xs[1..];
      assert xs[0] + "" == xs[0];
      assert xs == [xs[0]] + xs[1..];
    }
  }

  /** A character found in no part and not in the separator is not in the join. */
  lemma {:induction false} JoinExcludes(xs: seq<string>, sep: string, c: char)
    requires forall k :: 0 <= k < |xs| ==> c !in xs[k]
    requires c !in sep
    ensures c !in Join(xs, sep)
  {
    if |xs| > 1 {
      JoinExcludes(xs[1..], sep, c);
      assert Join(xs, sep) == xs[0] + sep + Join(xs[1..], sep);
    }
  }

  /** Where the `k`-th part starts in `Join(xs, sep)`. */
  function JoinOffset(xs: seq<string>, sep: string, k: nat): nat
    requires k < |xs|
  {
    if k == 0 then 0 else |xs[0]| + |sep| + JoinOffset(xs[1..], sep, k - 1)
  }

  /** The first part of a join opens it. */
  lemma JoinAtHead(xs: seq<string>, sep: string)
    requires |xs| > 0
    ensures OccursAt(xs[0], Join(xs, sep), 0)
  {
    if |xs| > 1 {
      var J := Join(xs, sep);
      assert J == xs[0] + (sep + Join(xs[1..], sep));
      assert J[..|xs[0]|] == xs[0];
    }
  }

  /** A join lays its parts out in order: part `k` sits at its offset, and the next part
      starts right after it and the separator. */
  lemma {:induction false} JoinAt(xs: seq<string>, sep: string, k: nat)
    requires k < |xs|
    ensures OccursAt(xs[k], Join(xs, sep), JoinOffset(xs, sep, k))
    ensures k + 1 < |xs| ==> JoinOffset(xs, sep, k + 1) == JoinOffset(xs, sep, k) + |xs[k]| + |sep|
  {
    if k == 0 {
      JoinAtHead(xs, sep);
    } else {
      var J := Join(xs, sep);
      var pre := xs[0] + sep;
      var rest := Join(xs[1..], sep);
      assert J == pre + rest;
      JoinAt(xs[1..], sep, k - 1);
      var o := JoinOffset(xs[1..], sep, k - 1);
      assert J[|pre| + o..|pre| + o + |xs[k]|] == rest[o..o + |xs[k]|];
    }
  }

  /** The characters `String.prototype.trim` removes: ECMAScript WhiteSpace and LineTerminator. */
  predicate IsWhitespace(ch: char) {
    || ch == ' ' || ch == '\t' || ch == '\n' || ch == '\r'
    || ch == '\U{000B}' || ch == '\U{000C}' || ch == '\U{00A0}' || ch == '\U{FEFF}'
    || ch == '\U{1680}' || ('\U{2000}' <= ch <= '\U{200A}')
    || ch == '\U{2028}' || ch == '\U{2029}' || ch == '\U{202F}' || ch == '\U{205F}'
    || ch == '\U{3000}'
  }

  /** A string with no whitespace at either end. */
  predicate IsTrimmed(s: string) {
    s == [] || (!IsWhitespace(s[0]) && !IsWhitespace(s[|s| - 1]))
  }

  /** The number of whitespace characters `s` starts with. */
  function LeadingSpace(s: string): (n: nat)
    ensures n <= |s|
    ensures forall k :: 0 <= k < n ==> IsWhitespace(s[k])
    ensures n < |s| ==> !IsWhitespace(s[n])
  {
    if s != [] && IsWhitespace(s[0]) then 1 + LeadingSpace(s[1..]) else 0
  }

  /** Where `s[lo..hi]` ends once its trailing whitespace is cut off. */
  function TrimmedEnd(s: string, lo: nat, hi: nat): (n: nat)
    requires lo <= hi <= |s|
    ensures lo <= n <= hi
    ensures forall k :: n <= k < hi ==> IsWhitespace(s[k])
    ensures n == lo || !IsWhitespace(s[n - 1])
    decreases hi
  {
    if lo < hi && IsWhitespace(s[hi - 1]) then TrimmedEnd(s, lo, hi - 1) else hi
  }

  /** `r` is `s` with some whitespace, possibly none, cut off at each end. */
  predicate IsMiddleOf(r: string, s: string) {
    exists i, j :: 0 <= i <= j <= |s| && r == s[i..j]
                   && (forall k :: 0 <= k < i ==> IsWhitespace(s[k]))
                   && (forall k :: j <= k < |s| ==> IsWhitespace(s[k]))
  }

  /** `s.trim()`: the middle of `s` once the whitespace at both ends is cut off. */
  function Trim(s: string): (r: string)
    ensures IsTrimmed(r)
    ensures IsMiddleOf(r, s)
  {
    var i := LeadingSpace(s);
    var j := TrimmedEnd(s, i, |s|);
    s[i..j]
  }

  /** Trimming text that already has no whitespace at its ends changes nothing. */
  lemma TrimOfTrimmed(s: string)
    requires IsTrimmed(s)
    ensures Trim(s) == s
  {
  }

  /** `sub` occurs in `s` at index `i`. */
  predicate OccursAt(sub: string, s: string, i: int) {
    0 <= i && i + |sub| <= |s| && s[i..i + |sub|] == sub
  }

  /** In `a + b + c + d`, the text `b + c` occurs right after `a`. */
  lemma OccursInMiddle(a: string, b: string, c: string, d: string)
    ensures (a + b + c + d)[..|a|] == a && OccursAt(b + c, a + b + c + d, |a|)
  {
    assert (a + b + c + d)[|a|..|a| + |b + c|] == b + c;
  }

  /** `s.indexOf(sub, from)`: the first occurrence at or after `from`, or -1. */
  function IndexOf(s: string, sub: string, from: nat): (r: int)
    ensures r == -1 || (from <= r && OccursAt(sub, s, r))
    ensures forall i :: from <= i && (r == -1 || i < r) ==> !OccursAt(sub, s, i)
    decreases |s| - from
  {
    if from + |sub| > |s| then -1
    else if s[from..from + |sub|] == sub then from
    else IndexOf(s, sub, from + 1)
  }

  /** `s.includes(sub)`. */
  predicate Includes(s: string, sub: string) {
    IndexOf(s, sub, 0) >= 0
  }

  lemma IncludesIff(s: string, sub: string)
    ensures Includes(s, sub) <==> exists i :: OccursAt(sub, s, i)
  {
  }

  /** `s.lastIndexOf(c)` for a single character, or -1. */
  function LastIndexOfChar(s: string, c: char): (r: int)
    ensures -1 <= r < |s|
    ensures r >= 0 ==> s[r] == c
    ensures forall i :: r < i < |s| ==> s[i] != c
  {
    if s == [] then -1
    else if s[|s| - 1] == c then |s| - 1
    else LastIndexOfChar(s[..|s| - 1], c)
  }

  /** `toLowerCase` on the ASCII letters. */
  function LowerChar(ch: char): char {
    if 'A' <= ch <= 'Z' then (ch as int + 32) as char else ch
  }

  function ToLower(s: string): (r: string)
    ensures |r| == |s|
    ensures forall i :: 0 <= i < |s| ==> r[i] == LowerChar(s[i])
  {
    if s == [] then [] else [LowerChar(s[0])] + ToLower(s[1..])
  }

  /** `s.slice(-n)`: the last `n` characters, or all of `s` when it is shorter. */
  function TakeLast(s: string, n: nat): (r: string)
    ensures |r| == if |s| < n then |s| else n
    ensures r == s[|s| - |r|..]
  {
    if |s| <= n then s else s[|s| - n..]
  }

  // ---- Decimal rendering of integers --------------------------------------------------

  predicate IsDigit(ch: char) { '0' <= ch <= '9' }

  function DigitChar(d: nat): char
    requires d < 10
  {
    ('0' as int + d) as char
  }

  function DigitValue(ch: char): nat
    requires IsDigit(ch)
  {
    ch as int - '0' as int
  }

  /** Decimal digits of a natural number, without leading zeros. */
  function NatToString(n: nat): (s: string)
    ensures |s| >= 1
    ensures forall i :: 0 <= i < |s| ==> IsDigit(s[i])
    ensures s[0] == '0' ==> n == 0
  {
    if n < 10 then [DigitChar(n)] else NatToString(n / 10) + [DigitChar(n % 10)]
  }

  /** `String(n)` for an integer: a minus sign for negatives, then the digits. */
  function IntToString(n: int): string {
    if n < 0 then "-" + NatToString(-n) else NatToString(n)
  }

  /** Reads a string of decimal digits. */
  function ParseDigits(s: string): nat
    requires forall i :: 0 <= i < |s| ==> IsDigit(s[i])
  {
    if s == [] then 0 else 10 * ParseDigits(s[..|s| - 1]) + DigitValue(s[|s| - 1])
  }

  /** Reads what IntToString writes. */
  function ParseInt(s: string): int
    requires s != []
    requires forall i :: 0 < i < |s| ==> IsDigit(s[i])
    requires s[0] == '-' || IsDigit(s[0])
  {
    if s[0] == '-' then 0 - ParseDigits(s[1..]) as int else ParseDigits(s)
  }

  lemma {:induction false} ParseNatToString(n: nat)
    ensures ParseDigits(NatToString(n)) == n
  {
    if n >= 10 {
      ParseNatToString(n / 10);
      var s := NatToString(n);
      assert s[..|s| - 1] == NatToString(n / 10);
    }
  }

  /** Decimal rendering round-trips, so it is injective. */
  lemma IntToStringRoundTrip(n: int)
    ensures var s := IntToString(n);
            s != [] && (s[0] == '-' || IsDigit(s[0]))
            && (forall i :: 0 < i < |s| ==> IsDigit(s[i]))
            && ParseInt(s) == n
  {
    var s := IntToString(n);
    if n < 0 {
      ParseNatToString(-n);
      assert s[1..] == NatToString(-n);
    } else {
      ParseNatToString(n);
    }
  }

  lemma IntToStringInjective(m: int, n: int)
    ensures IntToString(m) == IntToString(n) <==> m == n
  {
    IntToStringRoundTrip(m);
    IntToStringRoundTrip(n);
  }

  /** A decimal rendering holds only digits and a leading minus sign. */
  lemma IntToStringChars(n: int)
    ensures forall i :: 0 <= i < |IntToString(n)| ==> IntToString(n)[i] == '-' || IsDigit(IntToString(n)[i])
  {
    if n < 0 {
      var s := IntToString(n);
      assert s[1..] == NatToString(-n);
      forall i | 1 <= i < |s| ensures IsDigit(s[i]) {
        assert s[i] == NatToString(-n)[i - 1];
      }
    }
  }
}
