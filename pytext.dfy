/**
 * The few Python string builtins the configuration code relies on:
 * `str.isspace`, `str.strip`, `str.split(sep)`, `sep.join`, `str.upper`,
 * `str(int)` and `int(str)`, each stated as a function on `seq<char>`.
 */
module PyText {
  import opened Wrappers

  /** Python's `str.isspace()` for a single character, by code point. */
  predicate IsSpace(c: char) {
    var n := c as int;
    || n == 0x20
    || (0x09 <= n <= 0x0D)
    || (0x1C <= n <= 0x1F)
    || n == 0x85 || n == 0xA0 || n == 0x1680
    || (0x2000 <= n <= 0x200A)
    || n == 0x2028 || n == 0x2029 || n == 0x202F
    || n == 0x205F || n == 0x3000
  }

  predicate AllSpace(s: string) {
    forall k :: 0 <= k < |s| ==> IsSpace(s[k])
  }

  /** Neither the first nor the last character is whitespace. */
  predicate NoOuterSpace(s: string) {
    s == [] || (!IsSpace(s[0]) && !IsSpace(s[|s| - 1]))
  }

  /** Length of the longest all-whitespace prefix. */
  function LeadingSpaces(s: string): (n: nat)
    ensures n <= |s|
    ensures AllSpace(s[..n])
    ensures n < |s| ==> !IsSpace(s[n])
  {
    if s == [] || !IsSpace(s[0]) then 0 else 1 + LeadingSpaces(s[1..])
  }

  /** Length of the longest all-whitespace suffix. */
  function TrailingSpaces(s: string): (n: nat)
    ensures n <= |s|
    ensures AllSpace(s[|s| - n..])
    ensures n < |s| ==> !IsSpace(s[|s| - 1 - n])
  {
    if s == [] || !IsSpace(s[|s| - 1]) then 0 else 1 + TrailingSpaces(s[..|s| - 1])
  }

  /**
   * Python's `s.strip()`: the infix of `s` left after removing all leading
   * and all trailing whitespace.
   */
  function Strip(s: string): (r: string)
    ensures NoOuterSpace(r)
    ensures LeadingSpaces(s) + |r| <= |s|
    ensures r == s[LeadingSpaces(s)..LeadingSpaces(s) + |r|]
    ensures AllSpace(s[..LeadingSpaces(s)]) && AllSpace(s[LeadingSpaces(s) + |r|..])
  {
    var i := LeadingSpaces(s);
    var t := s[i..];
    var j := |t| - TrailingSpaces(t);
    assert t[..j] == s[i..i + j];
    assert s[i + j..] == t[j..];
    t[..j]
  }

  lemma StripKeepsUnpadded(s: string)
    requires NoOuterSpace(s)
    ensures Strip(s) == s
  {
  }

  /** Stripping removes characters, it never introduces one. */
  lemma StripKeepsAbsent(s: string, c: char)
    requires c !in s
    ensures c !in Strip(s)
  {
    var t := Strip(s);
    var i := LeadingSpaces(s);
    forall k | 0 <= k < |t| ensures t[k] != c {
      assert t[k] == s[i + k];
    }
  }

  lemma StripIdempotent(s: string)
    ensures Strip(Strip(s)) == Strip(s)
  {
    StripKeepsUnpadded(Strip(s));
  }

  /** Number of occurrences of `c` in `s`. */
  function Count(s: string, c: char): (n: nat)
    ensures n <= |s|
    ensures n == 0 <==> c !in s
  {
    if s == [] then 0 else (if s[0] == c then 1 else 0) + Count(s[1..], c)
  }

  lemma {:induction false} CountAppend(a: string, b: string, c: char)
    ensures Count(a + b, c) == Count(a, c) + Count(b, c)
  {
    if a == [] {
      assert a + b == b;
    } else {
      assert (a + b)[1..] == a[1..] + b;
      CountAppend(a[1..], b, c);
    }
  }

  /** Index of the first occurrence of `c` in `s`. */
  function IndexOf(s: string, c: char): (i: nat)
    requires c in s
    ensures i < |s| && s[i] == c && c !in s[..i]
  {
    if s[0] == c then 0 else 1 + IndexOf(s[1..], c)
  }

  lemma {:induction false} IndexOfFirst(a: string, b: string, c: char)
    requires c !in a
    ensures c in a + [c] + b && IndexOf(a + [c] + b, c) == |a|
  {
    assert (a + [c] + b)[|a|] == c;
    if a != [] {
      assert (a + [c] + b)[1..] == a[1..] + [c] + b;
      IndexOfFirst(a[1..], b, c);
    }
  }

  /** Python's `sep.join(pieces)` for a one-character separator. */
  function Join(pieces: seq<string>, sep: char): string
  {
    if |pieces| == 0 then ""
    else if |pieces| == 1 then pieces[0]
    else pieces[0] + [sep] + Join(pieces[1..], sep)
  }

  /**
   * Python's `s.split(sep)` with an explicit one-character separator: the
   * maximal separator-free pieces, one more than there are separators, which
   * `Join` puts back together into `s`.
   */
  function Split(s: string, sep: char): (pieces: seq<string>)
    ensures |pieces| == Count(s, sep) + 1
    ensures forall p <- pieces :: sep !in p
    decreases |s|
  {
    if sep !in s then [s]
    else
      var i := IndexOf(s, sep);
      SplitCount(s, i, sep);
      [s[..i]] + Split(s[i + 1..], sep)
  }

  lemma SplitCount(s: string, i: nat, sep: char)
    requires i < |s| && s[i] == sep && sep !in s[..i]
    ensures Count(s, sep) == Count(s[i + 1..], sep) + 1
  {
    assert s == s[..i] + ([sep] + s[i + 1..]);
    CountAppend(s[..i], [sep] + s[i + 1..], sep);
    CountAppend([sep], s[i + 1..], sep);
  }

  /** `sep.join(s.split(sep)) == s`. */
  lemma {:induction false} JoinSplit(s: string, sep: char)
    ensures Join(Split(s, sep), sep) == s
    decreases |s|
  {
    if sep in s {
      var i := IndexOf(s, sep);
      JoinSplit(s[i + 1..], sep);
      var rest := Split(s[i + 1..], sep);
      assert Split(s, sep) == [s[..i]] + rest;
      assert s == s[..i] + [sep] + s[i + 1..];
    }
  }

  /** Splitting what `Join` produced gives the pieces back. */
  lemma {:induction false} SplitJoin(pieces: seq<string>, sep: char)
    requires |pieces| > 0
    requires forall p <- pieces :: sep !in p
    ensures Split(Join(pieces, sep), sep) == pieces
    decreases |pieces|
  {
    if |pieces| > 1 {
      var s := Join(pieces, sep);
      var head := pieces[0];
      var tail := Join(pieces[1..], sep);
      assert s == head + [sep] + tail;
      IndexOfFirst(head, tail, sep);
      assert s[..|head|] == head;
      assert s[|head| + 1..] == tail;
      SplitJoin(pieces[1..], sep);
    }
  }

  predicate IsAsciiLower(c: char) { 'a' <= c <= 'z' }

  function UpperChar(c: char): char {
    if IsAsciiLower(c) then (c as int - 32) as char else c
  }

  /** Python's `s.upper()` restricted to ASCII letters. */
  function Upper(s: string): (r: string)
    ensures |r| == |s|
    ensures forall k :: 0 <= k < |r| ==> !IsAsciiLower(r[k])
    ensures forall k :: 0 <= k < |s| && IsAsciiLower(s[k]) ==> r[k] as int == s[k] as int - 32 && 'A' <= r[k] <= 'Z'
    ensures forall k :: 0 <= k < |s| && !IsAsciiLower(s[k]) ==> r[k] == s[k]
  {
    seq(|s|, k requires 0 <= k < |s| => UpperChar(s[k]))
  }

  lemma UpperIdempotent(s: string)
    ensures Upper(Upper(s)) == Upper(s)
  {
  }

  predicate IsDigit(c: char) { '0' <= c <= '9' }

  function DigitChar(d: nat): (c: char)
    requires d < 10
    ensures IsDigit(c) && c as int - '0' as int == d
  {
    ('0' as int + d) as char
  }

  /** The decimal digits of `n`, without leading zeros. */
  function Digits(n: nat): (r: string)
    ensures |r| > 0
    ensures forall k :: 0 <= k < |r| ==> IsDigit(r[k])
    ensures |r| > 1 ==> r[0] != '0'
  {
    if n < 10 then [DigitChar(n)] else Digits(n / 10) + [DigitChar(n % 10)]
  }

  /** Python's `str(i)` for an `int`. */
  function DecimalString(i: int): string {
    if i < 0 then "-" + Digits(-i) else Digits(i)
  }

  /**
   * A digit run as Python's `int()` accepts it: nonempty, starting and ending
   * with a digit, with single underscores allowed between digits.
   */
  predicate IsDigitGroup(t: string) {
    && |t| > 0
    && IsDigit(t[0])
    && IsDigit(t[|t| - 1])
    && forall k :: 0 <= k < |t| ==> IsDigit(t[k]) || (t[k] == '_' && 0 < k < |t| - 1 && IsDigit(t[k - 1]) && IsDigit(t[k + 1]))
  }

  /** The number written by the digits of `t`, underscores skipped. */
  function DigitsValue(t: string): nat {
    if t == [] then 0
    else if IsDigit(t[|t| - 1]) then DigitsValue(t[..|t| - 1]) * 10 + (t[|t| - 1] as int - '0' as int)
    else DigitsValue(t[..|t| - 1])
  }

  /**
   * The whitespace `int()` skips around a literal: the ASCII space and
   * `\t` to `\r`, and every non-ASCII character `str.isspace` accepts. The
   * separators U+001C to U+001F count as whitespace for `str.isspace` but
   * not for `int()`.
   */
  predicate IsIntSpace(c: char) {
    IsSpace(c) && !(0x1C <= c as int <= 0x1F)
  }

  predicate AllIntSpace(s: string) {
    forall k :: 0 <= k < |s| ==> IsIntSpace(s[k])
  }

  /**
   * Python's `int(s)` in base 10: surrounding whitespace is ignored, an
   * optional sign is followed by a digit group; anything else raises
   * `ValueError`, modelled as `None`. The text is cut as `str.strip` cuts
   * it, and rejected when what was cut holds a separator `int()` does not
   * skip; the literal left is then the first non-whitespace character
   * onwards, so that separator would be part of it.
   */
  function ParseInt(s: string): (r: Option<int>)
    ensures r.Some? ==> exists i, j :: 0 <= i <= j <= |s| && AllIntSpace(s[..i]) && AllIntSpace(s[j..]) && ParseSigned(s[i..j]) == r
  {
    var i := LeadingSpaces(s);
    var j := i + |Strip(s)|;
    if AllIntSpace(s[..i]) && AllIntSpace(s[j..]) then
      var r := ParseSigned(s[i..j]);
      assert 0 <= i <= j <= |s| && AllIntSpace(s[..i]) && AllIntSpace(s[j..]) && ParseSigned(s[i..j]) == r;
      r
    else None
  }

  /** Whitespace in front of a non-whitespace character is exactly the leading whitespace. */
  lemma {:induction false} LeadingSpacesOf(pre: string, rest: string)
    requires AllSpace(pre) && rest != [] && !IsSpace(rest[0])
    ensures LeadingSpaces(pre + rest) == |pre|
  {
    if pre != [] {
      assert (pre + rest)[1..] == pre[1..] + rest;
      LeadingSpacesOf(pre[1..], rest);
    }
  }

  /** Whitespace after a non-whitespace character is exactly the trailing whitespace. */
  lemma {:induction false} TrailingSpacesOf(rest: string, post: string)
    requires AllSpace(post) && rest != [] && !IsSpace(rest[|rest| - 1])
    ensures TrailingSpaces(rest + post) == |post|
  {
    if post != [] {
      assert (rest + post)[..|rest + post| - 1] == rest + post[..|post| - 1];
      TrailingSpacesOf(rest, post[..|post| - 1]);
    }
  }

  /** Stripping whitespace-padded text with no outer whitespace gives that text. */
  lemma StripPadded(pre: string, t: string, post: string)
    requires AllSpace(pre) && AllSpace(post) && t != [] && NoOuterSpace(t)
    ensures LeadingSpaces(pre + t + post) == |pre|
    ensures Strip(pre + t + post) == t
  {
    var s := pre + t + post;
    assert s == pre + (t + post);
    LeadingSpacesOf(pre, t + post);
    assert s[|pre|..] == t + post;
    TrailingSpacesOf(t, post);
  }

  /** `int()` skips any padding it counts as whitespace around a valid literal. */
  lemma ParseIntPadded(pre: string, t: string, post: string)
    requires AllIntSpace(pre) && AllIntSpace(post) && ParseSigned(t).Some?
    ensures ParseInt(pre + t + post) == ParseSigned(t)
  {
    var s := pre + t + post;
    assert AllSpace(pre) && AllSpace(post);
    assert !IsSpace(t[0]) by {
      assert t[0] == '+' || t[0] == '-' || IsDigit(t[0]);
    }
    assert !IsSpace(t[|t| - 1]) by {
      assert IsDigit(Unsigned(t)[|Unsigned(t)| - 1]);
    }
    StripPadded(pre, t, post);
    assert s[..|pre|] == pre;
    assert s[|pre| + |t|..] == post;
  }

  /** `int()` rejects a literal preceded by a separator U+001C to U+001F, which `str.strip` would cut. */
  lemma ParseIntRejectsSeparator(c: char, t: string)
    requires 0x1C <= c as int <= 0x1F
    ensures ParseInt([c] + t) == None
  {
    var s := [c] + t;
    assert IsSpace(s[0]);
    var i := LeadingSpaces(s);
    assert i > 0;
    assert !IsIntSpace(s[..i][0]);
  }

  /** `int()` of text already stripped of surrounding whitespace. */
  function ParseSigned(t: string): (r: Option<int>)
    ensures r.Some? <==> IsDigitGroup(Unsigned(t))
    ensures r.Some? ==> (r.value < 0 ==> t[0] == '-')
  {
    var body := Unsigned(t);
    var magnitude: int := DigitsValue(body);
    if !IsDigitGroup(body) then None
    else if t[0] == '-' then Some(-magnitude)
    else Some(magnitude)
  }

  /** `t` without its leading sign character, if any. */
  function Unsigned(t: string): string {
    if |t| > 0 && (t[0] == '+' || t[0] == '-') then t[1..] else t
  }

  /** A leading zero does not change the value of a digit run. */
  lemma {:induction false} DigitsValueLeadingZero(t: string)
    ensures DigitsValue("0" + t) == DigitsValue(t)
  {
    if t != [] {
      assert ("0" + t)[..|t|] == "0" + t[..|t| - 1];
      DigitsValueLeadingZero(t[..|t| - 1]);
    }
  }

  /** An underscore between digits does not change the value of a digit run. */
  lemma {:induction false} DigitsValueUnderscore(a: string, b: string)
    ensures DigitsValue(a + "_" + b) == DigitsValue(a + b)
  {
    if b == [] {
      assert (a + "_" + b)[..|a|] == a;
      assert a + b == a;
    } else {
      var b' := b[..|b| - 1];
      assert (a + "_" + b)[..|a| + |b|] == a + "_" + b';
      assert (a + b)[..|a| + |b| - 1] == a + b';
      DigitsValueUnderscore(a, b');
    }
  }

  /** An unsigned digit group followed by another, with or without an underscore between them. */
  lemma DigitGroupsJoin(a: string, b: string)
    requires IsDigitGroup(a) && IsDigitGroup(b)
    ensures IsDigitGroup(a + "_" + b) && IsDigitGroup(a + b)
  {
    var u := a + "_" + b;
    forall k | 0 <= k < |u|
      ensures IsDigit(u[k]) || (u[k] == '_' && 0 < k < |u| - 1 && IsDigit(u[k - 1]) && IsDigit(u[k + 1]))
    {
      if k < |a| {
        assert u[k] == a[k];
        if k + 1 < |a| { assert u[k + 1] == a[k + 1]; }
        if k > 0 { assert u[k - 1] == a[k - 1]; }
      } else if k > |a| {
        assert u[k] == b[k - |a| - 1];
        if k + 1 < |u| { assert u[k + 1] == b[k - |a|]; }
        if k > |a| + 1 { assert u[k - 1] == b[k - |a| - 2]; }
      } else {
        assert u[k - 1] == a[|a| - 1] && u[k + 1] == b[0];
      }
    }
    var v := a + b;
    forall k | 0 <= k < |v|
      ensures IsDigit(v[k]) || (v[k] == '_' && 0 < k < |v| - 1 && IsDigit(v[k - 1]) && IsDigit(v[k + 1]))
    {
      if k < |a| {
        assert v[k] == a[k];
        if k + 1 < |a| { assert v[k + 1] == a[k + 1]; }
        if k > 0 { assert v[k - 1] == a[k - 1]; }
      } else {
        assert v[k] == b[k - |a|];
        if k + 1 < |v| { assert v[k + 1] == b[k - |a| + 1]; }
        if k > |a| { assert v[k - 1] == b[k - |a| - 1]; }
      }
    }
  }

  /** `int("+" + t) == int(t)`, and `int("-" + t) == -int(t)`, for unsigned `t`. */
  lemma ParseSignPrefix(t: string)
    requires t == [] || (t[0] != '+' && t[0] != '-')
    ensures ParseSigned("+" + t) == ParseSigned(t)
    ensures ParseSigned("-" + t).Some? <==> ParseSigned(t).Some?
    ensures ParseSigned(t).Some? ==> ParseSigned("-" + t) == Some(-ParseSigned(t).value)
  {
    assert Unsigned("+" + t) == t && Unsigned("-" + t) == t && Unsigned(t) == t;
  }

  /** A leading zero in front of a digit group does not change what `int()` reads. */
  lemma ParseLeadingZero(t: string)
    requires IsDigitGroup(t)
    ensures ParseSigned("0" + t) == ParseSigned(t)
  {
    DigitsValueLeadingZero(t);
    DigitGroupsJoin("0", t);
    assert Unsigned("0" + t) == "0" + t && Unsigned(t) == t;
  }

  /** A single underscore between two digit groups does not change what `int()` reads. */
  lemma ParseUnderscore(a: string, b: string)
    requires IsDigitGroup(a) && IsDigitGroup(b)
    ensures ParseSigned(a + "_" + b).Some?
    ensures ParseSigned(a + "_" + b) == ParseSigned(a + b)
  {
    var u := a + "_" + b;
    var v := a + b;
    DigitGroupsJoin(a, b);
    DigitsValueUnderscore(a, b);
    assert u[0] == a[0] && v[0] == a[0];
    assert Unsigned(u) == u && Unsigned(v) == v;
    assert ParseSigned(u) == Some(DigitsValue(u) as int);
    assert ParseSigned(v) == Some(DigitsValue(v) as int);
  }

  lemma {:induction false} DigitsAreGroup(n: nat)
    ensures IsDigitGroup(Digits(n))
    ensures DigitsValue(Digits(n)) == n
  {
    if n >= 10 {
      DigitsAreGroup(n / 10);
      var d := Digits(n);
      assert d[..|d| - 1] == Digits(n / 10);
    }
  }

  /** The digits of `n`, unsigned, read back as `n`. */
  lemma ParseDigits(n: nat)
    ensures ParseSigned(Digits(n)) == Some(n)
  {
    var d := Digits(n);
    DigitsAreGroup(n);
    assert Unsigned(d) == d;
  }

  /** The digits of `n` after a minus sign read back as `-n`. */
  lemma ParseNegatedDigits(n: nat)
    ensures ParseSigned("-" + Digits(n)) == Some(-(n as int))
  {
    var d := Digits(n);
    DigitsAreGroup(n);
    var s := "-" + d;
    assert Unsigned(s) == d;
  }

  /** `str(i)` has no surrounding whitespace. */
  lemma DecimalStringUnpadded(i: int)
    ensures NoOuterSpace(DecimalString(i))
  {
    var m: nat := if i < 0 then -i else i;
    var d := Digits(m);
    var s := DecimalString(i);
    assert s[|s| - 1] == d[|d| - 1];
    assert s[0] == '-' || s[0] == d[0];
  }

  /** `int(str(i)) == i`: the parser reads back what `str` writes. */
  lemma DecimalStringRoundTrip(i: int)
    ensures ParseInt(DecimalString(i)) == Some(i)
  {
    DecimalStringUnpadded(i);
    StripKeepsUnpadded(DecimalString(i));
    DecimalStringParses(i);
  }

  /** `str(i)` read back by the sign-and-digits parser. */
  lemma DecimalStringParses(i: int)
    ensures ParseSigned(DecimalString(i)) == Some(i)
  {
    if i < 0 {
      var n: nat := -i;
      assert DecimalString(i) == "-" + Digits(n);
      ParseNegatedDigits(n);
    } else {
      ParseDigits(i);
    }
  }
}
