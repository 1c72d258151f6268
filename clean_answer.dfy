/**
 * The answer normaliser `Agent._clean_answer`: turns the raw value the
 * language model produced into the exact-match string that is submitted.
 */
module CleanAnswer {
  import opened Text

  /** The raw answer, by Python type. `bool` is a subclass of `int`, `None` and every other object go through `str()`. */
  datatype RawAnswer =
    | Str(text: string)
    | Int(n: int)
    | Bool(b: bool)
    | NoneValue
    | OtherValue(repr: string)  // what `str()` gives for any other object, such as a list

  /** The conversational prefixes, in the order they are tried. */
  const Prefixes: seq<string> := [
    "The answer is ",
    "Answer: ",
    "Final answer: ",
    "The result is ",
    "To answer this question: ",
    "Based on the information provided, ",
    "According to the information: "
  ]

  /** One test of the prefix loop: remove `p` and re-strip when it leads `s`. */
  function DropPrefix(s: string, p: string): string {
    if StartsWith(s, p) then Strip(s[|p|..]) else s
  }

  /** The prefix loop: each prefix in `ps` is tried once, in order, against the current string. */
  function DropFrom(s: string, ps: seq<string>): string
    decreases |ps|
  {
    if ps == [] then s else DropFrom(DropPrefix(s, ps[0]), ps[1..])
  }

  /** Both ends carry the same quote character (one character counts as both ends). */
  predicate WrappedInQuotes(s: string) {
    (StartsWith(s, "\"") && EndsWith(s, "\"")) || (StartsWith(s, "'") && EndsWith(s, "'"))
  }

  /** Python's `s[1:-1]`, which is empty for a string of length one or zero. */
  function Inner(s: string): string {
    if |s| >= 2 then s[1..|s| - 1] else []
  }

  /** The final step: one layer of matching quotes is removed and the rest re-stripped. */
  function Unquote(s: string): string {
    if WrappedInQuotes(s) then Strip(Inner(s)) else s
  }

  /** What `_clean_answer` returns for a string. */
  function CleanText(s: string): string {
    Unquote(DropFrom(Strip(s), Prefixes))
  }

  /** What `_clean_answer` returns for any modelled answer. */
  function Clean(a: RawAnswer): string {
    match a
    case Str(t) => CleanText(t)
    case Int(n) => IntToString(n)
    case Bool(b) => if b then "True" else "False"
    case NoneValue => "None"
    case OtherValue(repr) => repr
  }

  /** `_clean_answer`, step by step as the source rebinds `answer`. */
  method CleanAnswer(answer: RawAnswer) returns (r: string)
    ensures r == Clean(answer)
    ensures answer.Str? ==> NoEdgeWs(r) && IsInfix(r, answer.text)
    ensures answer.Int? ==> ParseInt(r) == answer.n
  {
    match answer {
      case Int(n) =>
        r := IntToString(n);
        IntRoundTrip(n);
      case Bool(b) =>
        r := if b then "True" else "False";
      case NoneValue =>
        r := "None";
      case OtherValue(repr) =>
        r := repr;
      case Str(text) =>
        r := Strip(text);
        for i := 0 to |Prefixes|
          invariant DropFrom(r, Prefixes[i..]) == DropFrom(Strip(text), Prefixes)
        {
          var prefix := Prefixes[i];
          assert Prefixes[i..][1..] == Prefixes[i + 1..];
          if StartsWith(r, prefix) {
            r := Strip(r[|prefix|..]);
          }
        }
        if (StartsWith(r, "\"") && EndsWith(r, "\"")) || (StartsWith(r, "'") && EndsWith(r, "'")) {
          r := Strip(Inner(r));
        }
        CleanTextShape(text);
    }
  }

  // ---- Shape of the result ----

  lemma {:induction false} DropFromShape(s: string, ps: seq<string>)
    requires NoEdgeWs(s)
    ensures NoEdgeWs(DropFrom(s, ps)) && IsInfix(DropFrom(s, ps), s)
    decreases |ps|
  {
    if ps == [] {
      assert s == s[0..|s|];
    } else {
      var t := DropPrefix(s, ps[0]);
      if StartsWith(s, ps[0]) {
        SuffixIsInfix(s, |ps[0]|);
        StripIsInfix(s[|ps[0]|..]);
        InfixTransitive(t, s[|ps[0]|..], s);
      } else {
        assert s == s[0..|s|];
      }
      DropFromShape(t, ps[1..]);
      InfixTransitive(DropFrom(t, ps[1..]), t, s);
    }
  }

  lemma UnquoteShape(s: string)
    requires NoEdgeWs(s)
    ensures NoEdgeWs(Unquote(s)) && IsInfix(Unquote(s), s)
  {
    if WrappedInQuotes(s) {
      var m := Inner(s);
      if |s| >= 2 { InnerIsInfix(s); } else { EmptyIsInfix(s); }
      StripIsInfix(m);
      InfixTransitive(Strip(m), m, s);
    } else {
      assert s == s[0..|s|];
    }
  }

  /** For a string, the result is a contiguous piece of the input with no whitespace at either end. */
  lemma CleanTextShape(s: string)
    ensures NoEdgeWs(CleanText(s)) && IsInfix(CleanText(s), s)
  {
    var t := Strip(s);
    StripIsInfix(s);
    DropFromShape(t, Prefixes);
    var u := DropFrom(t, Prefixes);
    InfixTransitive(u, t, s);
    UnquoteShape(u);
    InfixTransitive(Unquote(u), u, s);
  }

  // ---- Which prefixes are removed ----

  lemma DiffersAt(s: string, p: string, k: nat)
    requires k < |s| && k < |p| && s[k] != p[k]
    ensures !StartsWith(s, p)
  {
    assert |p| <= |s| ==> s[..|p|][k] == s[k];
  }

  lemma LeadsWith(p: string, x: string)
    ensures StartsWith(p + x, p) && (p + x)[|p|..] == x
  {
    assert (p + x)[..|p|] == p;
  }

  /** A string no prefix of `ps` leads is left alone by the prefix loop. */
  lemma {:induction false} DropFromNone(s: string, ps: seq<string>)
    requires forall k :: 0 <= k < |ps| ==> !StartsWith(s, ps[k])
    ensures DropFrom(s, ps) == s
    decreases |ps|
  {
    if ps != [] {
      assert !StartsWith(s, ps[0]);
      DropFromNone(s, ps[1..]);
    }
  }

  /** A prefix is removed only when it leads the current string exactly, including its trailing space. */
  lemma DropPrefixExact(s: string, p: string)
    ensures DropPrefix(s, p) != s ==> |p| <= |s| && s[..|p|] == p
  {
  }

  /** A bare answer: nonempty, no edge whitespace, no listed prefix, no wrapping quotes. */
  predicate Plain(x: string) {
    && x != []
    && NoEdgeWs(x)
    && (forall k :: 0 <= k < |Prefixes| ==> !StartsWith(x, Prefixes[k]))
    && !WrappedInQuotes(x)
  }

  /** A plain answer passes through unchanged. */
  lemma PlainKept(x: string)
    requires Plain(x)
    ensures CleanText(x) == x
  {
    StripKeeps(x);
    DropFromNone(x, Prefixes);
  }

  /** The prefix without its trailing space is not a match: `"The answer is"` comes back unchanged. */
  lemma PrefixWithoutSpaceKept()
    ensures CleanText("The answer is") == "The answer is"
  {
    var s := "The answer is";
    DiffersAt(s, Prefixes[1], 0);
    DiffersAt(s, Prefixes[2], 0);
    DiffersAt(s, Prefixes[3], 4);
    DiffersAt(s, Prefixes[4], 1);
    DiffersAt(s, Prefixes[5], 0);
    DiffersAt(s, Prefixes[6], 0);
    PlainKept(s);
  }

  /** Stripping a prefix that leaves a plain string behind. */
  lemma DropLeading(p: string, x: string)
    requires NoEdgeWs(x) && x != []
    ensures DropPrefix(p + x, p) == x
  {
    LeadsWith(p, x);
    StripKeeps(x);
  }

  /** Unfolds the prefix loop over `Prefixes[k..]` by one test. */
  lemma DropFromNext(s: string, k: nat)
    requires k < |Prefixes|
    ensures DropFrom(s, Prefixes[k..]) == DropFrom(DropPrefix(s, Prefixes[k]), Prefixes[k + 1..])
  {
    assert Prefixes[k..][0] == Prefixes[k];
    assert Prefixes[k..][1..] == Prefixes[k + 1..];
  }

  /** Test `k` of the prefix loop removes `Prefixes[k]` from a string it leads. */
  lemma DropFromMatch(k: nat, x: string)
    requires k < |Prefixes| && NoEdgeWs(x) && x != []
    ensures DropFrom(Prefixes[k] + x, Prefixes[k..]) == DropFrom(x, Prefixes[k + 1..])
  {
    DropFromNext(Prefixes[k] + x, k);
    DropLeading(Prefixes[k], x);
  }

  /** Test `k` of the prefix loop leaves a string that `Prefixes[k]` does not lead. */
  lemma DropFromMiss(k: nat, s: string)
    requires k < |Prefixes| && !StartsWith(s, Prefixes[k])
    ensures DropFrom(s, Prefixes[k..]) == DropFrom(s, Prefixes[k + 1..])
  {
    DropFromNext(s, k);
  }

  /** The prefix loop on `"Answer: Final answer: " + x` removes both prefixes. */
  lemma DropBothPrefixes(x: string)
    requires x != [] && NoEdgeWs(x)
    requires forall k :: 3 <= k < |Prefixes| ==> !StartsWith(x, Prefixes[k])
    ensures DropFrom(Prefixes[1] + Prefixes[2] + x, Prefixes) == x
  {
    var f := Prefixes[2] + x;
    var s := Prefixes[1] + f;
    assert Prefixes[1] + Prefixes[2] + x == s;
    calc {
      DropFrom(s, Prefixes);
      { assert Prefixes[0..] == Prefixes; }
      DropFrom(s, Prefixes[0..]);
      { DiffersAt(s, Prefixes[0], 0); DropFromMiss(0, s); }
      DropFrom(s, Prefixes[1..]);
      { assert f[0] == 'F' && f[|f| - 1] == x[|x| - 1]; DropFromMatch(1, f); }
      DropFrom(f, Prefixes[2..]);
      { DropFromMatch(2, x); }
      DropFrom(x, Prefixes[3..]);
      { DropFromNone(x, Prefixes[3..]); }
      x;
    }
  }

  /** A prefix exposed by removing an earlier one in the list is removed as well. */
  lemma LaterPrefixExposedRemoved(x: string)
    requires Plain(x)
    ensures CleanText("Answer: Final answer: " + x) == x
  {
    var s := Prefixes[1] + Prefixes[2] + x;
    assert s == "Answer: Final answer: " + x;
    assert s[0] == 'A' && s[|s| - 1] == x[|x| - 1];
    StripKeeps(s);
    DropBothPrefixes(x);
  }

  /** The prefix loop on `"Answer: The answer is " + x` removes only `"Answer: "`. */
  lemma DropAnswerOnly(x: string)
    requires x != [] && NoEdgeWs(x)
    ensures DropFrom(Prefixes[1] + Prefixes[0] + x, Prefixes) == Prefixes[0] + x
  {
    var t := Prefixes[0] + x;
    var s := Prefixes[1] + t;
    assert Prefixes[1] + Prefixes[0] + x == s;
    calc {
      DropFrom(s, Prefixes);
      { assert Prefixes[0..] == Prefixes; }
      DropFrom(s, Prefixes[0..]);
      { DiffersAt(s, Prefixes[0], 0); DropFromMiss(0, s); }
      DropFrom(s, Prefixes[1..]);
      { assert t[0] == 'T' && t[|t| - 1] == x[|x| - 1]; DropFromMatch(1, t); }
      DropFrom(t, Prefixes[2..]);
      { LaterPrefixesMiss(x); DropFromNone(t, Prefixes[2..]); }
      t;
    }
  }

  /** A prefix exposed by removing a later one in the list stays: the list is walked once. */
  lemma EarlierPrefixExposedKept(x: string)
    requires x != [] && NoEdgeWs(x)
    ensures CleanText("Answer: The answer is " + x) == "The answer is " + x
  {
    var t := Prefixes[0] + x;
    var s := Prefixes[1] + Prefixes[0] + x;
    assert s == "Answer: The answer is " + x;
    assert s[0] == 'A' && s[|s| - 1] == x[|x| - 1];
    StripKeeps(s);
    DropAnswerOnly(x);
    DiffersAt(t, "\"", 0);
    DiffersAt(t, "'", 0);
  }

  /** No prefix after `"Answer: "` in the list leads `"The answer is " + x`. */
  lemma LaterPrefixesMiss(x: string)
    ensures forall k :: 2 <= k < |Prefixes| ==> !StartsWith(Prefixes[0] + x, Prefixes[k])
  {
    var t := Prefixes[0] + x;
    forall k | 2 <= k < |Prefixes| ensures !StartsWith(t, Prefixes[k]) {
      DiffersAt(t, Prefixes[k], if k == 3 then 4 else if k == 4 then 1 else 0);
    }
  }

  // ---- Quotes ----

  predicate IsQuote(c: char) {
    c == '"' || c == '\''
  }

  /** No prefix starts with a quote. */
  lemma QuoteLedUnprefixed(s: string)
    requires s != [] && IsQuote(s[0])
    ensures forall k :: 0 <= k < |Prefixes| ==> !StartsWith(s, Prefixes[k])
  {
    forall k | 0 <= k < |Prefixes| ensures !StartsWith(s, Prefixes[k]) {
      DiffersAt(s, Prefixes[k], 0);
    }
  }

  /** A stripped answer that starts with a quote skips the prefix loop and goes straight to quote removal. */
  lemma CleanQuoteLed(s: string)
    requires s != [] && IsQuote(s[0]) && NoEdgeWs(s)
    ensures CleanText(s) == Unquote(s)
  {
    StripKeeps(s);
    QuoteLedUnprefixed(s);
    DropFromNone(s, Prefixes);
  }

  /** Python's `s[1:-1]` takes back what was wrapped. */
  lemma InnerOfWrapped(q: char, m: string)
    ensures Inner([q] + m + [q]) == m
  {
    var s := [q] + m + [q];
    assert s[1..|s| - 1] == m;
  }

  /** A string wrapped in a quote starts with a quote and has no edge whitespace. */
  lemma WrappedEdges(q: char, m: string)
    requires IsQuote(q)
    ensures var s := [q] + m + [q]; s != [] && IsQuote(s[0]) && NoEdgeWs(s) && WrappedInQuotes(s)
  {
    var s := [q] + m + [q];
    assert s[0] == q && s[|s| - 1] == q;
  }

  /** Quote removal on a wrapped string strips what was inside. */
  lemma UnquoteWrapped(q: char, m: string)
    requires IsQuote(q)
    ensures Unquote([q] + m + [q]) == Strip(m)
  {
    WrappedEdges(q, m);
    InnerOfWrapped(q, m);
  }

  /** Cleaning a wrapped string is stripping what was inside. */
  lemma CleanWrapped(q: char, m: string)
    requires IsQuote(q)
    ensures CleanText([q] + m + [q]) == Strip(m)
  {
    WrappedEdges(q, m);
    CleanQuoteLed([q] + m + [q]);
    UnquoteWrapped(q, m);
  }

  /** Matching quotes are removed, and only the whitespace just inside them with them. */
  lemma MatchingQuotesRemoved(q: char, x: string)
    requires IsQuote(q)
    requires NoEdgeWs(x)
    ensures CleanText([q] + x + [q]) == x
  {
    CleanWrapped(q, x);
    StripKeeps(x);
  }

  /** Mixed quotes, in either order, are not a wrapping pair and stay. */
  lemma MixedQuotesKept(open: char, close: char, x: string)
    requires IsQuote(open) && IsQuote(close) && open != close
    ensures CleanText([open] + x + [close]) == [open] + x + [close]
  {
    var s := [open] + x + [close];
    assert s[0] == open && s[|s| - 1] == close;
    CleanQuoteLed(s);
    assert !WrappedInQuotes(s);
  }

  /** Only one layer of quotes goes, so cleaning is not idempotent: `""x""` becomes `"x"`, which a second pass turns into `x`. */
  lemma OneQuoteLayerOnly(q: char, x: string)
    requires IsQuote(q) && NoEdgeWs(x)
    ensures CleanText([q] + ([q] + x + [q]) + [q]) == [q] + x + [q]
    ensures CleanText(CleanText([q] + ([q] + x + [q]) + [q])) == x
    ensures CleanText(CleanText([q] + ([q] + x + [q]) + [q])) != CleanText([q] + ([q] + x + [q]) + [q])
  {
    var m := [q] + x + [q];
    WrappedEdges(q, x);
    MatchingQuotesRemoved(q, m);
    MatchingQuotesRemoved(q, x);
    assert |m| == |x| + 2;
  }

  /** The prefix loop runs before quote removal, so a prefix inside the quotes survives. */
  lemma PrefixInsideQuotesKept(x: string)
    requires x != [] && NoEdgeWs(x)
    ensures CleanText("\" Answer: " + x + "\"") == "Answer: " + x
  {
    var a := "Answer: " + x;
    assert "\" Answer: " + x + "\"" == ['"'] + (" " + a) + ['"'];
    assert a[0] == 'A' && a[|a| - 1] == x[|x| - 1];
    CleanWrapped('"', " " + a);
    StripLeadingSpace(a);
  }

  /** Stripping runs before the prefix test, so a bare `"Answer: "` (or `"Answer:"` with any trailing whitespace) loses its space and then no longer matches. */
  lemma BarePrefixKeepsColon(w: string)
    requires AllWs(w)
    ensures CleanText("Answer:" + w) == "Answer:"
  {
    var a := "Answer:";
    var s := a + w;
    assert NoEdgeWs(a);
    assert TrimmedAt(a, s, 0) by {
      assert s[..|a|] == a;
      forall k | |a| <= k < |s| ensures IsWs(s[k]) {
        assert s[k] == w[k - |a|];
      }
    }
    StripUnique(s, a, 0);
    StripKeeps(a);
    AnswerColonPlain();
    PlainKept(a);
  }

  /** `"Answer:"` without its space matches no prefix and carries no quotes. */
  lemma AnswerColonPlain()
    ensures Plain("Answer:")
  {
    var a := "Answer:";
    assert NoEdgeWs(a) && !WrappedInQuotes(a);
    DiffersAt(a, Prefixes[0], 0);
    assert !StartsWith(a, Prefixes[1]);
    forall k | 2 <= k < |Prefixes| ensures !StartsWith(a, Prefixes[k]) {
      DiffersAt(a, Prefixes[k], if k == 6 then 1 else 0);
    }
  }

  // ---- Non-string answers ----

  /** An integer comes back as its `str()`, from which it can be read back; no prefix or quote processing applies. */
  lemma IntAnswerRoundTrip(n: int)
    ensures ParseInt(Clean(Int(n))) == n
    ensures Clean(Int(-10)) == "-10"
  {
    IntRoundTrip(n);
    assert NatToDigits(10) == "10";
  }
}
