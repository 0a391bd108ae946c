/** The Python 2 builtins the loader relies on: `strip`, `lower`,
    `index(" ")` and `int` on decimal integers. `str` of an integer is here
    only to state that `int` reads back what it writes. Strings are byte
    strings in Python 2, so whitespace and case are the ASCII ones. */
module Text {
  import opened Results

  /** The characters `str.strip()` removes: space, \t, \n, \r, \v and \f. */
  predicate IsSpace(c: char) {
    c == ' ' || c == '\t' || c == '\n' || c == '\r' || c == '\U{000B}' || c == '\U{000C}'
  }

  predicate AllSpace(s: string) {
    forall k | 0 <= k < |s| :: IsSpace(s[k])
  }

  /** Neither the first nor the last character is whitespace. */
  predicate Stripped(s: string) {
    s == [] || (!IsSpace(s[0]) && !IsSpace(s[|s| - 1]))
  }

  /** `s.lstrip()`: `s` without its leading whitespace. */
  function TrimStart(s: string): string {
    if s != [] && IsSpace(s[0]) then TrimStart(s[1..]) else s
  }

  /** `s.rstrip()`: `s` without its trailing whitespace. */
  function TrimEnd(s: string): string {
    if s != [] && IsSpace(s[|s| - 1]) then TrimEnd(s[..|s| - 1]) else s
  }

  /** `s.strip()`: `s` without its leading and trailing whitespace. */
  function Strip(s: string): string {
    TrimEnd(TrimStart(s))
  }

  /** `lstrip` drops a prefix of whitespace and stops at the first other character. */
  lemma {:induction false} TrimStartSpec(s: string)
    ensures var r := TrimStart(s);
      |r| <= |s| && r == s[|s| - |r|..] && AllSpace(s[..|s| - |r|]) && (r == [] || !IsSpace(r[0]))
    decreases |s|
  {
    if s != [] && IsSpace(s[0]) {
      TrimStartSpec(s[1..]);
      var r := TrimStart(s);
      assert s[..|s| - |r|] == [s[0]] + s[1..][..|s| - 1 - |r|];
    }
  }

  /** `rstrip` drops a suffix of whitespace and stops at the last other character. */
  lemma {:induction false} TrimEndSpec(s: string)
    ensures var r := TrimEnd(s);
      |r| <= |s| && r == s[..|r|] && AllSpace(s[|r|..]) && (r == [] || !IsSpace(r[|r| - 1]))
    decreases |s|
  {
    if s != [] && IsSpace(s[|s| - 1]) {
      TrimEndSpec(s[..|s| - 1]);
      var r := TrimEnd(s);
      assert s[|r|..] == s[..|s| - 1][|r|..] + [s[|s| - 1]];
    }
  }

  /** What `strip` returns has no surrounding whitespace and is no longer than its input. */
  lemma StripSpec(s: string)
    ensures Stripped(Strip(s)) && |Strip(s)| <= |s|
  {
    TrimStartSpec(s);
    TrimEndSpec(TrimStart(s));
    var t := TrimStart(s);
    var r := TrimEnd(t);
    if r != [] {
      assert r[0] == t[0];
    }
  }

  /** What `strip` removes is whitespace on either side: the result is an
      infix of `s` with only whitespace before and after it. */
  lemma StripInfix(s: string)
    ensures var r := Strip(s);
      exists i | 0 <= i <= |s| - |r| :: r == s[i..i + |r|] && AllSpace(s[..i]) && AllSpace(s[i + |r|..])
  {
    TrimStartSpec(s);
    var t := TrimStart(s);
    TrimEndSpec(t);
    var r := TrimEnd(t);
    var i := |s| - |t|;
    assert r == s[i..i + |r|] && AllSpace(s[..i]);
    assert AllSpace(s[i + |r|..]) by {
      assert s[i + |r|..] == t[|r|..];
    }
    assert Strip(s) == r;
    assert 0 <= i <= |s| - |r| && r == s[i..i + |r|] && AllSpace(s[..i]) && AllSpace(s[i + |r|..]);
  }

  /** `lstrip` removes a whitespace prefix in front of a string that does not
      itself start with whitespace. */
  lemma {:induction false} TrimStartSpaces(a: string, t: string)
    requires AllSpace(a) && (t == [] || !IsSpace(t[0]))
    ensures TrimStart(a + t) == t
    decreases |a|
  {
    if a == [] {
      assert a + t == t;
    } else {
      assert (a + t)[1..] == a[1..] + t;
      TrimStartSpaces(a[1..], t);
    }
  }

  /** `rstrip` removes a whitespace suffix behind a string that does not
      itself end with whitespace. */
  lemma {:induction false} TrimEndSpaces(t: string, b: string)
    requires AllSpace(b) && (t == [] || !IsSpace(t[|t| - 1]))
    ensures TrimEnd(t + b) == t
    decreases |b|
  {
    if b == [] {
      assert t + b == t;
    } else {
      assert (t + b)[..|t + b| - 1] == t + b[..|b| - 1];
      TrimEndSpaces(t, b[..|b| - 1]);
    }
  }

  /** `strip` gives back a stripped string from between any whitespace. */
  lemma StripAround(a: string, core: string, b: string)
    requires AllSpace(a) && AllSpace(b) && Stripped(core)
    ensures Strip(a + core + b) == core
  {
    if core == [] {
      assert a + core + b == (a + b) + [];
      TrimStartSpaces(a + b, []);
    } else {
      assert a + core + b == a + (core + b);
      TrimStartSpaces(a, core + b);
      TrimEndSpaces(core, b);
    }
  }

  /** Whitespace after a string, such as a line terminator, does not change what `strip` gives. */
  lemma StripTrailingSpace(s: string, b: string)
    requires AllSpace(b)
    ensures Strip(s + b) == Strip(s)
  {
    var r := Strip(s);
    StripSpec(s);
    StripInfix(s);
    var i :| 0 <= i <= |s| - |r| && r == s[i..i + |r|] && AllSpace(s[..i]) && AllSpace(s[i + |r|..]);
    StripInfixThenSpace(s, i, r, b);
  }

  /** A stripped infix of `s` with only whitespace around it is what `strip`
      gives for `s` followed by more whitespace. */
  lemma StripInfixThenSpace(s: string, i: nat, r: string, b: string)
    requires i + |r| <= |s| && r == s[i..i + |r|] && Stripped(r)
    requires AllSpace(s[..i]) && AllSpace(s[i + |r|..]) && AllSpace(b)
    ensures Strip(s + b) == r
  {
    assert s + b == s[..i] + r + s[i + |r|..] + b by {
      assert s == s[..i] + s[i..i + |r|] + s[i + |r|..];
    }
    StripAroundTwo(s[..i], r, s[i + |r|..], b);
  }

  /** `StripAround` with the whitespace after the core given in two pieces. */
  lemma StripAroundTwo(a: string, core: string, c: string, b: string)
    requires AllSpace(a) && AllSpace(c) && AllSpace(b) && Stripped(core)
    ensures Strip(a + core + c + b) == core
  {
    assert AllSpace(c + b) by {
      assert forall k | 0 <= k < |c + b| :: (c + b)[k] == if k < |c| then c[k] else b[k - |c|];
    }
    assert a + core + c + b == a + core + (c + b);
    StripAround(a, core, c + b);
  }

  /** Stripping a string that has no surrounding whitespace gives it back. */
  lemma StripStripped(s: string)
    requires Stripped(s)
    ensures Strip(s) == s
  {
  }

  /** Stripping drops a leading whitespace character along with the rest. */
  lemma StripLeadingSpace(c: char, s: string)
    requires IsSpace(c)
    ensures Strip([c] + s) == Strip(s)
  {
    assert ([c] + s)[1..] == s;
  }

  lemma {:induction false} StripIdempotent(s: string)
    ensures Strip(Strip(s)) == Strip(s)
  {
    StripSpec(s);
    StripStripped(Strip(s));
  }

  /** Python 2 `str.lower()` on one byte: only 'A'..'Z' change. */
  function LowerChar(c: char): char {
    if 'A' <= c <= 'Z' then (c as int + 32) as char else c
  }

  predicate IsUpper(c: char) {
    'A' <= c <= 'Z'
  }

  /** No upper-case ASCII letter: what `lower()` leaves behind. */
  predicate IsLowerCase(s: string) {
    forall k | 0 <= k < |s| :: !IsUpper(s[k])
  }

  /** `s.lower()`. */
  function Lower(s: string): (r: string)
    ensures |r| == |s|
    ensures forall k | 0 <= k < |s| :: r[k] == LowerChar(s[k])
  {
    if s == [] then [] else [LowerChar(s[0])] + Lower(s[1..])
  }

  /** The result of `lower()` has no upper-case letter, so lowering again changes nothing. */
  lemma LowerIsLowerCase(s: string)
    ensures IsLowerCase(Lower(s))
    ensures Lower(Lower(s)) == Lower(s)
  {
  }

  /** `s.index(c)`: the position of the first `c`, or ValueError when `s` has none. */
  function IndexOf(s: string, c: char): (r: Result<nat>)
    ensures r.Err? <==> c !in s
    ensures r.Err? ==> r.error == ValueError
    ensures r.Ok? ==> r.value < |s| && s[r.value] == c && c !in s[..r.value]
  {
    if s == [] then Err(ValueError)
    else if s[0] == c then Ok(0)
    else match IndexOf(s[1..], c)
      case Err(e) => Err(e)
      case Ok(i) => assert s[1..][..i] == s[1..i + 1]; Ok(i + 1)
  }

  predicate IsDigit(c: char) {
    '0' <= c <= '9'
  }

  /** A non-empty string of decimal digits: the ordinals `int()` is given in a playset. */
  predicate IsOrdinal(s: string) {
    s != [] && forall k | 0 <= k < |s| :: IsDigit(s[k])
  }

  /** The value of a digit string, most significant digit first, leading zeros allowed. */
  function DigitsValue(s: string): nat
    requires forall k | 0 <= k < |s| :: IsDigit(s[k])
  {
    if s == [] then 0
    else
      assert IsDigit(s[|s| - 1]);
      DigitsValue(s[..|s| - 1]) * 10 + (s[|s| - 1] as int - '0' as int)
  }

  /** The decimal rendering of `n`, with no leading zero (`str(n)`). */
  function Decimal(n: nat): (r: string)
    ensures IsOrdinal(r)
    ensures |r| > 1 ==> r[0] != '0'
  {
    if n < 10 then [('0' as int + n) as char]
    else Decimal(n / 10) + [('0' as int + n % 10) as char]
  }

  /** `int(str(n)) == n`. */
  lemma {:induction false} DecimalRoundTrip(n: nat)
    ensures DigitsValue(Decimal(n)) == n
  {
    if n >= 10 {
      DecimalRoundTrip(n / 10);
      var d := Decimal(n);
      assert d[..|d| - 1] == Decimal(n / 10);
    }
  }

  /** A sign character `int()` accepts in front of the digits. */
  predicate IsSign(c: char) {
    c == '+' || c == '-'
  }

  /** `int(s)` on a stripped string: an optional sign and then decimal
      digits; anything else is ValueError. */
  function IntValue(s: string): (r: Result<int>)
    ensures r.Ok? <==> IsOrdinal(s) || (|s| > 1 && IsSign(s[0]) && IsOrdinal(s[1..]))
    ensures r.Err? ==> r.error == ValueError
    ensures IsOrdinal(s) ==> r == Ok(DigitsValue(s))
  {
    if IsOrdinal(s) then Ok(DigitsValue(s))
    else if |s| > 1 && IsSign(s[0]) && IsOrdinal(s[1..]) then
      var m: int := DigitsValue(s[1..]);
      Ok(if s[0] == '-' then -m else m)
    else Err(ValueError)
  }

  /** `str(n)`: a minus sign for a negative `n`, then its magnitude in decimal. */
  function IntString(n: int): (r: string)
    ensures r != [] && (IsDigit(r[0]) || r[0] == '-')
    ensures forall k | 0 <= k < |r| :: IsDigit(r[k]) || (k == 0 && r[k] == '-')
  {
    if n < 0 then "-" + Decimal(-n) else Decimal(n)
  }

  /** `int(str(n)) == n` for every integer. */
  lemma IntRoundTrip(n: int)
    ensures IntValue(IntString(n)) == Ok(n)
  {
    if n < 0 {
      var d := Decimal(-n);
      assert IntString(n)[1..] == d;
      DecimalRoundTrip(-n);
    } else {
      DecimalRoundTrip(n);
    }
  }
}
