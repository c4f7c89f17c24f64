/** String operations of JavaScript that the cart and the checkout form use,
    written out over `string` (a sequence of characters). */
module Text {

  /** ASCII decimal digit: the class `\d` (and `[0-9]`) of a regular
      expression without the `u` flag. */
  predicate IsDigit(c: char) {
    '0' <= c <= '9'
  }

  predicate AllDigits(s: string) {
    forall i :: 0 <= i < |s| ==> IsDigit(s[i])
  }

  /** The class `\s` of a JavaScript regular expression: white space and line
      terminators. */
  predicate IsWhitespace(c: char) {
    || c == ' ' || c == '\t' || c == '\n' || c == '\r'
    || c == '\U{000B}' || c == '\U{000C}' || c == '\U{00A0}' || c == '\U{1680}'
    || '\U{2000}' <= c <= '\U{200A}'
    || c == '\U{2028}' || c == '\U{2029}' || c == '\U{202F}' || c == '\U{205F}'
    || c == '\U{3000}' || c == '\U{FEFF}'
  }

  /** `s.replace(/\D/g, '')`: the digits of `s`, in order. */
  function Digits(s: string): (r: string)
    ensures AllDigits(r)
    ensures |r| <= |s|
  {
    if s == [] then []
    else (if IsDigit(s[0]) then [s[0]] else []) + Digits(s[1..])
  }

  lemma {:induction false} DigitsAppend(a: string, b: string)
    ensures Digits(a + b) == Digits(a) + Digits(b)
  {
    if a == [] {
      assert a + b == b;
    } else {
      var head := if IsDigit(a[0]) then [a[0]] else [];
      assert (a + b)[0] == a[0];
      assert (a + b)[1..] == a[1..] + b;
      calc {
        Digits(a + b);
        head + Digits(a[1..] + b);
        { DigitsAppend(a[1..], b); }
        head + (Digits(a[1..]) + Digits(b));
        (head + Digits(a[1..])) + Digits(b);
        Digits(a) + Digits(b);
      }
    }
  }

  lemma DigitsSplit(s: string, i: nat)
    requires i <= |s|
    ensures Digits(s) == Digits(s[..i]) + Digits(s[i..])
  {
    assert s == s[..i] + s[i..];
    DigitsAppend(s[..i], s[i..]);
  }

  /** A string of digits is left as it is. */
  lemma {:induction false} DigitsOfDigits(s: string)
    requires AllDigits(s)
    ensures Digits(s) == s
  {
    if s != [] {
      DigitsOfDigits(s[1..]);
    }
  }

  /** A string without digits loses all of its characters. */
  lemma {:induction false} DigitsOfNonDigits(s: string)
    requires forall i :: 0 <= i < |s| ==> !IsDigit(s[i])
    ensures Digits(s) == []
  {
    if s != [] {
      DigitsOfNonDigits(s[1..]);
    }
  }

  /** The digits of `a`, a separator and `b`, for strings of digits `a` and `b`. */
  lemma DigitsAround(a: string, sep: char, b: string)
    requires AllDigits(a) && AllDigits(b) && !IsDigit(sep)
    ensures Digits(a + [sep] + b) == a + b
  {
    DigitsAppend(a + [sep], b);
    DigitsBeforeSeparator(a, sep);
    DigitsOfDigits(b);
  }

  /** A separator after digits adds nothing to them. */
  lemma DigitsBeforeSeparator(a: string, sep: char)
    requires AllDigits(a) && !IsDigit(sep)
    ensures Digits(a + [sep]) == a
  {
    DigitsAppend(a, [sep]);
    DigitsOfDigits(a);
    DigitsOfNonDigits([sep]);
  }

  /** `s.replace(/\s+/g, "")`: `s` without its white space. */
  function StripWhitespace(s: string): (r: string)
    ensures |r| <= |s|
    ensures forall i :: 0 <= i < |r| ==> !IsWhitespace(r[i])
  {
    if s == [] then []
    else (if IsWhitespace(s[0]) then [] else [s[0]]) + StripWhitespace(s[1..])
  }

  /** Removing white space first changes nothing about the digits. */
  lemma {:induction false} DigitsOfStripped(s: string)
    ensures Digits(StripWhitespace(s)) == Digits(s)
  {
    if s != [] {
      var head := if IsWhitespace(s[0]) then [] else [s[0]];
      DigitsAppend(head, StripWhitespace(s[1..]));
      DigitsOfStripped(s[1..]);
    }
  }

  /** `s.slice(0, n)`: the first `n` characters, or all of them. */
  function Take(s: string, n: nat): (r: string)
    ensures |r| == if |s| <= n then |s| else n
    ensures r <= s
  {
    if |s| <= n then s else s[..n]
  }

  /** `s.slice(i, j)` (and `s.substring(i, j)`) for `0 <= i <= j`: the bounds
      are clamped to the length of `s`. */
  function Slice(s: string, i: nat, j: nat): (r: string)
    requires i <= j
    ensures |r| == (if j <= |s| then j else |s|) - (if i <= |s| then i else |s|)
    ensures forall k :: 0 <= k < |r| ==> r[k] == s[i + k]
  {
    var hi := if j <= |s| then j else |s|;
    var lo := if i <= |s| then i else |s|;
    s[lo..hi]
  }

  predicate StartsWith(s: string, prefix: string) {
    |prefix| <= |s| && s[..|prefix|] == prefix
  }

  /** `s.replace(pattern, replacement)` with a string pattern: only the first
      occurrence is replaced; an empty pattern matches at the start. */
  function ReplaceFirst(s: string, pattern: string, replacement: string): string
  {
    if StartsWith(s, pattern) then replacement + s[|pattern|..]
    else if s == [] then s
    else [s[0]] + ReplaceFirst(s[1..], pattern, replacement)
  }

  /** A first character that cannot start the pattern is kept, and the
      replacement happens in the rest. */
  lemma ReplaceFirstSkip(s: string, pattern: string, replacement: string)
    requires s != [] && pattern != [] && s[0] != pattern[0]
    ensures ReplaceFirst(s, pattern, replacement) == [s[0]] + ReplaceFirst(s[1..], pattern, replacement)
  {
  }

  /** A pattern that `s` starts with is the one replaced. */
  lemma ReplaceFirstPrefix(s: string, pattern: string, replacement: string)
    requires StartsWith(s, pattern)
    ensures ReplaceFirst(s, pattern, replacement) == replacement + s[|pattern|..]
  {
  }

  /** The pieces of `s` of `k` characters each, the last possibly shorter:
      the `parts` that a loop `for (i = 0; i < s.length; i += k)
      parts.push(s.substring(i, i + k))` collects. */
  function Chunks(s: string, k: nat): (parts: seq<string>)
    requires k > 0
    ensures s == [] <==> parts == []
    decreases |s|
  {
    if s == [] then []
    else if |s| <= k then [s]
    else [s[..k]] + Chunks(s[k..], k)
  }

  /** `parts.join(sep)`. */
  function Join(parts: seq<string>, sep: string): string
  {
    if parts == [] then []
    else if |parts| == 1 then parts[0]
    else parts[0] + sep + Join(parts[1..], sep)
  }

  /** `s` cut into groups of `k` characters separated by single spaces. */
  function Grouped(s: string, k: nat): string
    requires k > 0
  {
    Join(Chunks(s, k), " ")
  }

  /** The recursive shape of `Grouped`: the first `k` characters, a space,
      then the rest grouped the same way. */
  lemma GroupedUnfold(s: string, k: nat)
    requires k > 0
    ensures |s| <= k ==> Grouped(s, k) == s
    ensures |s| > k ==> Grouped(s, k) == s[..k] + " " + Grouped(s[k..], k)
  {
    if |s| > k {
      var rest := Chunks(s[k..], k);
      assert rest != [];
      assert Chunks(s, k) == [s[..k]] + rest;
      assert ([s[..k]] + rest)[1..] == rest;
    }
  }

  /** One space between each two groups. */
  lemma {:induction false} GroupedLength(s: string, k: nat)
    requires k > 0
    ensures s == [] ==> |Grouped(s, k)| == 0
    ensures s != [] ==> |Grouped(s, k)| == |s| + |Chunks(s, k)| - 1
    decreases |s|
  {
    GroupedUnfold(s, k);
    if |s| > k {
      GroupedLength(s[k..], k);
    }
  }

  /** `n` groups hold more than `n - 1` and at most `n` times `k` characters. */
  lemma {:induction false} ChunksCount(s: string, k: nat)
    requires k > 0
    ensures (|Chunks(s, k)| - 1) * k < |s| || s == []
    ensures |s| <= |Chunks(s, k)| * k
    decreases |s|
  {
    if |s| > k {
      ChunksCount(s[k..], k);
      var n := |Chunks(s[k..], k)|;
      assert |Chunks(s, k)| == n + 1;
      assert (n + 1) * k == n * k + k;
    }
  }

  /** Every character of a grouping is a space or a character of `s`. */
  lemma {:induction false} GroupedChars(s: string, k: nat, i: nat)
    requires k > 0
    requires i < |Grouped(s, k)|
    ensures Grouped(s, k)[i] == ' ' || Grouped(s, k)[i] in s
    decreases |s|
  {
    GroupedUnfold(s, k);
    if |s| > k && i > k {
      GroupedChars(s[k..], k, i - k - 1);
    }
  }

  /** Grouping a string of digits and dropping the spaces again gives it back. */
  lemma {:induction false} DigitsOfGrouped(s: string, k: nat)
    requires k > 0
    requires AllDigits(s)
    ensures Digits(Grouped(s, k)) == s
    decreases |s|
  {
    GroupedUnfold(s, k);
    if |s| <= k {
      DigitsOfDigits(s);
    } else {
      var g := Grouped(s[k..], k);
      calc {
        Digits(Grouped(s, k));
        Digits(s[..k] + [' '] + g);
        { DigitsAppend(s[..k] + [' '], g); }
        Digits(s[..k] + [' ']) + Digits(g);
        { DigitsBeforeSeparator(s[..k], ' '); DigitsOfGrouped(s[k..], k); }
        s[..k] + s[k..];
      }
      assert s[..k] + s[k..] == s;
    }
  }
}
