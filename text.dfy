/**
 * Python string built-ins used by the agent: `str.strip()`, `startswith`,
 * `endswith`, `str(int)` and `"sep".join(...)`.
 */
module Text {

  /** The characters Python's `str.isspace()` accepts, which is the set `str.strip()` removes. */
  predicate IsWs(c: char) {
    var n := c as int;
    || (0x09 <= n <= 0x0D)
    || (0x1C <= n <= 0x20)
    || n == 0x85 || n == 0xA0 || n == 0x1680
    || (0x2000 <= n <= 0x200A)
    || n == 0x2028 || n == 0x2029 || n == 0x202F || n == 0x205F || n == 0x3000
  }

  predicate AllWs(s: string) {
    forall k :: 0 <= k < |s| ==> IsWs(s[k])
  }

  /** Neither the first nor the last character is whitespace. */
  predicate NoEdgeWs(s: string) {
    s == [] || (!IsWs(s[0]) && !IsWs(s[|s| - 1]))
  }

  /** `r` is a contiguous piece of `s`. */
  ghost predicate IsInfix(r: string, s: string) {
    exists i, j :: 0 <= i <= j <= |s| && r == s[i..j]
  }

  /** `r` is `s[i..]` with whitespace cut from both ends: everything around it is whitespace. */
  predicate TrimmedAt(r: string, s: string, i: nat) {
    && i + |r| <= |s| && r == s[i..i + |r|]
    && (forall k :: 0 <= k < i ==> IsWs(s[k]))
    && (forall k :: i + |r| <= k < |s| ==> IsWs(s[k]))
  }

  lemma InfixTransitive(a: string, b: string, c: string)
    requires IsInfix(a, b) && IsInfix(b, c)
    ensures IsInfix(a, c)
  {
    var i, j :| 0 <= i <= j <= |b| && a == b[i..j];
    var k, l :| 0 <= k <= l <= |c| && b == c[k..l];
    assert a == c[k + i..k + j] by {
      forall n | 0 <= n < j - i ensures a[n] == c[k + i + n] {
        assert a[n] == b[i + n];
      }
    }
  }

  lemma SuffixIsInfix(s: string, n: nat)
    requires n <= |s|
    ensures IsInfix(s[n..], s)
  {
    assert s[n..] == s[n..|s|];
  }

  lemma InnerIsInfix(s: string)
    requires |s| >= 2
    ensures IsInfix(s[1..|s| - 1], s)
  {
  }

  lemma EmptyIsInfix(s: string)
    ensures IsInfix([], s)
  {
    assert [] == s[0..0];
  }

  /** `s` without its leading whitespace. */
  function TrimStart(s: string): (r: string)
    ensures |r| <= |s|
    ensures r == [] || !IsWs(r[0])
  {
    if s != [] && IsWs(s[0]) then TrimStart(s[1..]) else s
  }

  /** `TrimStart` removes a run of whitespace and nothing else. */
  lemma {:induction false} TrimStartSpec(s: string)
    ensures TrimStart(s) == s[|s| - |TrimStart(s)|..]
    ensures forall k :: 0 <= k < |s| - |TrimStart(s)| ==> IsWs(s[k])
  {
    if s != [] && IsWs(s[0]) {
      TrimStartSpec(s[1..]);
      assert s[1..][|s| - 1 - |TrimStart(s)|..] == s[|s| - |TrimStart(s)|..];
      forall k | 1 <= k < |s| - |TrimStart(s)| ensures IsWs(s[k]) {
        assert s[k] == s[1..][k - 1];
      }
    }
  }

  /** `s` without its trailing whitespace. */
  function TrimEnd(s: string): (r: string)
    ensures |r| <= |s|
    ensures r == [] || !IsWs(r[|r| - 1])
  {
    if s != [] && IsWs(s[|s| - 1]) then TrimEnd(s[..|s| - 1]) else s
  }

  /** `TrimEnd` removes a run of whitespace and nothing else. */
  lemma {:induction false} TrimEndSpec(s: string)
    ensures TrimEnd(s) == s[..|TrimEnd(s)|]
    ensures forall k :: |TrimEnd(s)| <= k < |s| ==> IsWs(s[k])
  {
    if s != [] && IsWs(s[|s| - 1]) {
      var t := s[..|s| - 1];
      TrimEndSpec(t);
      assert t[..|TrimEnd(s)|] == s[..|TrimEnd(s)|];
      forall k | |TrimEnd(s)| <= k < |s| - 1 ensures IsWs(s[k]) {
        assert s[k] == t[k];
      }
    }
  }

  /** Where `Strip(s)` starts in `s`. */
  function StripStart(s: string): (i: nat)
    ensures i <= |s|
  {
    |s| - |TrimStart(s)|
  }

  /** Python's `s.strip()`. */
  function Strip(s: string): (r: string)
    ensures |r| <= |s|
    ensures NoEdgeWs(r)
  {
    var t := TrimStart(s);
    TrimEndSpec(t);
    TrimEnd(t)
  }

  /** `Strip(s)` is `s` with whitespace, and only whitespace, cut from both ends. */
  lemma StripSpec(s: string)
    ensures TrimmedAt(Strip(s), s, StripStart(s))
  {
    var t := TrimStart(s);
    TrimStartSpec(s);
    var r := TrimEnd(t);
    TrimEndSpec(t);
    assert Strip(s) == r;
    var i := |s| - |t|;
    assert r == s[i..i + |r|] by {
      assert t == s[i..];
      assert r == t[..|r|];
    }
    forall k | i + |r| <= k < |s|
      ensures IsWs(s[k])
    {
      assert s[k] == t[k - i];
    }
  }

  /** `Strip(s)` is a contiguous piece of `s`, empty exactly when `s` is all whitespace. */
  lemma StripIsInfix(s: string)
    ensures IsInfix(Strip(s), s)
    ensures Strip(s) == [] <==> AllWs(s)
  {
    StripSpec(s);
    var i, r := StripStart(s), Strip(s);
    assert r == s[i..i + |r|];
  }

  /** Any edge-free trim of `s` is the one `Strip` computes. */
  lemma {:induction false} StripUnique(s: string, r: string, i: nat)
    requires TrimmedAt(r, s, i) && NoEdgeWs(r)
    ensures r == Strip(s)
  {
    var q, m := Strip(s), StripStart(s);
    StripSpec(s);
    if r != [] && q != [] {
      assert !IsWs(s[i]) && !IsWs(s[m]);
      assert i == m;
      assert !IsWs(s[i + |r| - 1]) && !IsWs(s[m + |q| - 1]);
    }
  }

  /** Stripping leaves a string that has no edge whitespace unchanged. */
  lemma StripKeeps(s: string)
    requires NoEdgeWs(s)
    ensures Strip(s) == s
  {
    StripUnique(s, s, 0);
  }

  /** One leading space is stripped away. */
  lemma StripLeadingSpace(s: string)
    requires NoEdgeWs(s)
    ensures Strip(" " + s) == s
  {
    StripUnique(" " + s, s, 1);
  }

  predicate StartsWith(s: string, p: string) {
    |p| <= |s| && s[..|p|] == p
  }

  predicate EndsWith(s: string, p: string) {
    |p| <= |s| && s[|s| - |p|..] == p
  }

  // ---- str(int) ----

  predicate IsDigit(c: char) {
    '0' <= c <= '9'
  }

  function DigitChar(d: nat): (c: char)
    requires d < 10
    ensures IsDigit(c) && (c as int) - ('0' as int) == d
  {
    (('0' as int) + d) as char
  }

  function DigitValue(c: char): nat
    requires IsDigit(c)
  {
    (c as int) - ('0' as int)
  }

  /** Decimal digits of `n`, most significant first, without leading zeros. */
  function NatToDigits(n: nat): (r: string)
    ensures |r| >= 1
    ensures forall k :: 0 <= k < |r| ==> IsDigit(r[k])
    ensures r[0] == '0' ==> n == 0 && r == "0"
  {
    if n < 10 then [DigitChar(n)] else NatToDigits(n / 10) + [DigitChar(n % 10)]
  }

  /** Python's `str(n)` for an `int`. */
  function IntToString(n: int): (r: string)
    ensures |r| >= 1
    ensures (r[0] == '-') <==> n < 0
    ensures forall k :: (if n < 0 then 1 else 0) <= k < |r| ==> IsDigit(r[k])
    ensures !IsWs(r[0]) && !IsWs(r[|r| - 1])
    ensures |r| >= (if n < 0 then 2 else 1)
    ensures r[if n < 0 then 1 else 0] == '0' ==> n == 0 && r == "0"
  {
    if n < 0 then "-" + NatToDigits(-n) else NatToDigits(n)
  }

  /** Reads back a string of decimal digits. */
  function DigitsValue(s: string): nat
    requires forall k :: 0 <= k < |s| ==> IsDigit(s[k])
  {
    if s == [] then 0 else DigitsValue(s[..|s| - 1]) * 10 + DigitValue(s[|s| - 1])
  }

  /** Reads back an optionally negative decimal numeral. */
  function ParseInt(s: string): int
    requires |s| >= 1
    requires forall k :: (if s[0] == '-' then 1 else 0) <= k < |s| ==> IsDigit(s[k])
  {
    if s[0] == '-' then -(DigitsValue(s[1..]) as int) else DigitsValue(s)
  }

  lemma {:induction false} DigitsRoundTrip(n: nat)
    ensures DigitsValue(NatToDigits(n)) == n
  {
    if n >= 10 {
      DigitsRoundTrip(n / 10);
      var r := NatToDigits(n);
      assert r[..|r| - 1] == NatToDigits(n / 10);
    }
  }

  /** `str(n)` loses nothing: the integer can be read back from it. */
  lemma IntRoundTrip(n: int)
    ensures ParseInt(IntToString(n)) == n
  {
    if n < 0 {
      DigitsRoundTrip(-n);
      assert IntToString(n)[1..] == NatToDigits(-n);
    } else {
      DigitsRoundTrip(n);
    }
  }

  // ---- sep.join(xs) ----

  /** Python's `sep.join(xs)`. */
  function Join(sep: string, xs: seq<string>): string {
    if xs == [] then []
    else if |xs| == 1 then xs[0]
    else Join(sep, xs[..|xs| - 1]) + sep + xs[|xs| - 1]
  }

  /** Where the `i`-th piece starts in `Join(sep, xs)`: after every earlier piece and its separator. */
  function JoinOffset(sep: string, xs: seq<string>, i: nat): nat
    requires i <= |xs|
  {
    if i == 0 then 0 else JoinOffset(sep, xs, i - 1) + |xs[i - 1]| + |sep|
  }

  lemma {:induction false} JoinOffsetPrefix(sep: string, xs: seq<string>, n: nat, i: nat)
    requires i <= n <= |xs|
    ensures JoinOffset(sep, xs[..n], i) == JoinOffset(sep, xs, i)
  {
    if i > 0 {
      JoinOffsetPrefix(sep, xs, n, i - 1);
    }
  }

  lemma {:induction false} JoinLength(sep: string, xs: seq<string>)
    requires xs != []
    ensures |Join(sep, xs)| == JoinOffset(sep, xs, |xs| - 1) + |xs[|xs| - 1]|
  {
    var n := |xs|;
    if n > 1 {
      JoinLength(sep, xs[..n - 1]);
      JoinOffsetPrefix(sep, xs, n - 1, n - 2);
    }
  }

  lemma {:induction false} JoinPieceAt(sep: string, xs: seq<string>, i: nat)
    requires i < |xs|
    ensures JoinOffset(sep, xs, i) + |xs[i]| <= |Join(sep, xs)|
    ensures Join(sep, xs)[JoinOffset(sep, xs, i)..JoinOffset(sep, xs, i) + |xs[i]|] == xs[i]
  {
    var n := |xs|;
    if n > 1 {
      var init := xs[..n - 1];
      var j := Join(sep, init);
      var o := JoinOffset(sep, xs, i);
      if i < n - 1 {
        JoinPieceAt(sep, init, i);
        JoinOffsetPrefix(sep, xs, n - 1, i);
        assert Join(sep, xs)[o..o + |xs[i]|] == j[o..o + |xs[i]|];
      } else {
        JoinLength(sep, init);
        JoinOffsetPrefix(sep, xs, n - 1, n - 2);
        assert o == |j| + |sep|;
      }
    }
  }

  lemma {:induction false} JoinSeparatorBefore(sep: string, xs: seq<string>, i: nat)
    requires 0 < i < |xs|
    ensures |sep| <= JoinOffset(sep, xs, i) <= |Join(sep, xs)|
    ensures Join(sep, xs)[JoinOffset(sep, xs, i) - |sep|..JoinOffset(sep, xs, i)] == sep
  {
    var n := |xs|;
    var init := xs[..n - 1];
    var j := Join(sep, init);
    var e := JoinOffset(sep, xs, i);
    var o := e - |sep|;
    JoinPieceAt(sep, xs, i);
    if i < n - 1 {
      JoinSeparatorBefore(sep, init, i);
      JoinOffsetPrefix(sep, xs, n - 1, i);
      assert Join(sep, xs)[o..e] == j[o..e];
    } else {
      JoinLength(sep, init);
      JoinOffsetPrefix(sep, xs, n - 1, n - 2);
      assert o == |j|;
    }
  }

  /** Every piece of `Join(sep, xs)` sits at its offset. */
  lemma JoinPieces(sep: string, xs: seq<string>)
    ensures forall i :: 0 <= i < |xs| ==>
      JoinOffset(sep, xs, i) + |xs[i]| <= |Join(sep, xs)| &&
      Join(sep, xs)[JoinOffset(sep, xs, i)..JoinOffset(sep, xs, i) + |xs[i]|] == xs[i]
  {
    forall i | 0 <= i < |xs|
      ensures JoinOffset(sep, xs, i) + |xs[i]| <= |Join(sep, xs)|
      ensures Join(sep, xs)[JoinOffset(sep, xs, i)..JoinOffset(sep, xs, i) + |xs[i]|] == xs[i]
    {
      JoinPieceAt(sep, xs, i);
    }
  }

  /** Every piece of `Join(sep, xs)` but the first has one `sep` just before it. */
  lemma JoinSeparators(sep: string, xs: seq<string>)
    ensures forall i :: 0 < i < |xs| ==>
      |sep| <= JoinOffset(sep, xs, i) <= |Join(sep, xs)| &&
      Join(sep, xs)[JoinOffset(sep, xs, i) - |sep|..JoinOffset(sep, xs, i)] == sep
  {
    forall i | 0 < i < |xs|
      ensures |sep| <= JoinOffset(sep, xs, i) <= |Join(sep, xs)|
      ensures Join(sep, xs)[JoinOffset(sep, xs, i) - |sep|..JoinOffset(sep, xs, i)] == sep
    {
      JoinSeparatorBefore(sep, xs, i);
    }
  }

  /** A join of nonempty `xs` starts with the first piece and ends with the last. */
  lemma JoinEnds(sep: string, xs: seq<string>)
    requires xs != []
    ensures StartsWith(Join(sep, xs), xs[0])
    ensures EndsWith(Join(sep, xs), xs[|xs| - 1])
  {
    var n := |xs| - 1;
    JoinPieceAt(sep, xs, 0);
    JoinPieceAt(sep, xs, n);
    JoinLength(sep, xs);
  }
}
