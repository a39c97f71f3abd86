/**
  The parts of Python's `str` that the scraper relies on, restricted to ASCII:
  `strip()`, `split(sep)`, `split()` with no argument, `isdigit()`, and `str(n)`
  for a natural number.
 */
module PyText {

  /** The ASCII characters that `str.isspace` accepts: tab to carriage return,
      the four separator controls 0x1C to 0x1F, and the space. */
  predicate IsWs(c: char)
  {
    var n := c as int;
    n == 32 || 9 <= n <= 13 || 28 <= n <= 31
  }

  predicate NoWs(s: string)
  {
    forall i :: 0 <= i < |s| ==> !IsWs(s[i])
  }

  predicate IsDigit(c: char)
  {
    '0' <= c <= '9'
  }

  /** `s.isdigit()`: false on the empty string. */
  predicate IsDigits(s: string)
  {
    |s| > 0 && forall i :: 0 <= i < |s| ==> IsDigit(s[i])
  }

  // ---------------------------------------------------------------------------
  // strip()

  /** Number of whitespace characters at the start of `s`. */
  function LeadingWs(s: string): (n: nat)
    ensures n <= |s|
    ensures forall i :: 0 <= i < n ==> IsWs(s[i])
    ensures n == |s| || !IsWs(s[n])
  {
    if |s| > 0 && IsWs(s[0]) then 1 + LeadingWs(s[1..]) else 0
  }

  function StripRight(s: string): (r: string)
    ensures |r| <= |s| && r == s[..|r|]
    ensures r == [] || !IsWs(r[|r| - 1])
    ensures forall i :: |r| <= i < |s| ==> IsWs(s[i])
  {
    if |s| > 0 && IsWs(s[|s| - 1]) then StripRight(s[..|s| - 1]) else s
  }

  /** `s.strip()`: the result is the slice of `s` that starts after its leading
      whitespace, everything cut off after it is whitespace, and the result
      neither starts nor ends with whitespace. */
  function Strip(s: string): (r: string)
    ensures LeadingWs(s) + |r| <= |s| && r == s[LeadingWs(s)..LeadingWs(s) + |r|]
    ensures forall j :: LeadingWs(s) + |r| <= j < |s| ==> IsWs(s[j])
    ensures r == [] || (!IsWs(r[0]) && !IsWs(r[|r| - 1]))
  {
    var i := LeadingWs(s);
    var r := StripRight(s[i..]);
    assert r == s[i..i + |r|];
    r
  }

  /** A string that neither starts nor ends with whitespace is its own strip. */
  lemma StripUnchanged(s: string)
    requires s == [] || (!IsWs(s[0]) && !IsWs(s[|s| - 1]))
    ensures Strip(s) == s
  {
  }

  lemma StripIdempotent(s: string)
    ensures Strip(Strip(s)) == Strip(s)
  {
    StripUnchanged(Strip(s));
  }

  // ---------------------------------------------------------------------------
  // split(sep)

  predicate StartsWith(s: string, prefix: string)
  {
    |prefix| <= |s| && s[..|prefix|] == prefix
  }

  /** `s.split(sep)` for a non-empty separator: cuts at every occurrence of
      `sep`, scanning from the left, and keeps empty fields. */
  function Split(s: string, sep: string): (parts: seq<string>)
    requires sep != []
    ensures |parts| >= 1
    decreases |s|
  {
    if |s| < |sep| then [s]
    else if StartsWith(s, sep) then [""] + Split(s[|sep|..], sep)
    else
      var rest := Split(s[1..], sep);
      [[s[0]] + rest[0]] + rest[1..]
  }

  /** `sep.join(parts)`. */
  function Join(parts: seq<string>, sep: string): string
  {
    if |parts| == 0 then ""
    else if |parts| == 1 then parts[0]
    else parts[0] + sep + Join(parts[1..], sep)
  }

  lemma JoinPrependToHead(c: char, parts: seq<string>, sep: string)
    requires |parts| >= 1
    ensures Join([[c] + parts[0]] + parts[1..], sep) == [c] + Join(parts, sep)
  {
    var whole := [[c] + parts[0]] + parts[1..];
    if |parts| > 1 {
      assert whole[1..] == parts[1..];
    }
  }

  /** Joining the fields of a split with the same separator gives back the text. */
  lemma {:induction false} SplitJoin(s: string, sep: string)
    requires sep != []
    ensures Join(Split(s, sep), sep) == s
    decreases |s|
  {
    if |s| < |sep| {
    } else if StartsWith(s, sep) {
      var rest := Split(s[|sep|..], sep);
      SplitJoin(s[|sep|..], sep);
      assert ([""] + rest)[1..] == rest;
      assert sep + s[|sep|..] == s;
    } else {
      var rest := Split(s[1..], sep);
      SplitJoin(s[1..], sep);
      JoinPrependToHead(s[0], rest, sep);
      assert [s[0]] + s[1..] == s;
    }
  }

  /** Text before the first separator becomes the first field: as long as the
      separator's first character does not occur in `a`, splitting
      `a + sep + b` yields `a` followed by the fields of `b`. */
  lemma {:induction false} SplitLeading(a: string, sep: string, b: string)
    requires sep != [] && sep[0] !in a
    ensures Split(a + sep + b, sep) == [a] + Split(b, sep)
    decreases |a|
  {
    var s := a + sep + b;
    if a == [] {
      assert s == sep + b && s[..|sep|] == sep && s[|sep|..] == b;
    } else {
      assert s[0] == a[0] != sep[0];
      assert !StartsWith(s, sep);
      assert s[1..] == a[1..] + sep + b;
      SplitLeading(a[1..], sep, b);
      assert [a[0]] + a[1..] == a;
    }
  }

  /** Text without the separator's first character is a single field. */
  lemma {:induction false} SplitWithoutSeparator(a: string, sep: string)
    requires sep != [] && sep[0] !in a
    ensures Split(a, sep) == [a]
    decreases |a|
  {
    if |a| >= |sep| {
      assert a[0] != sep[0];
      assert !StartsWith(a, sep);
      SplitWithoutSeparator(a[1..], sep);
      assert [a[0]] + a[1..] == a;
    }
  }

  /** A one-character separator that occurs in the text yields at least two fields. */
  lemma {:induction false} SplitWithSeparator(a: string, c: char)
    requires c in a
    ensures |Split(a, [c])| >= 2
    decreases |a|
  {
    if a[0] != c {
      assert !StartsWith(a, [c]);
      SplitWithSeparator(a[1..], c);
    }
  }

  /** Splitting on `c` yields two or more fields exactly when `c` occurs. */
  lemma SplitCountsSeparator(a: string, c: char)
    ensures |Split(a, [c])| >= 2 <==> c in a
  {
    if c in a {
      SplitWithSeparator(a, c);
    } else {
      SplitWithoutSeparator(a, [c]);
    }
  }

  /** A text that does not start with the separator has a non-empty first field. */
  lemma SplitFirstNonEmpty(s: string, c: char)
    requires |s| > 0 && s[0] != c
    ensures Split(s, [c])[0] != []
  {
    assert !StartsWith(s, [c]);
  }

  /** `tokens[i] if len(tokens) > i else ''`. */
  function TokenOr(tokens: seq<string>, i: nat): string
  {
    if i < |tokens| then tokens[i] else ""
  }

  // ---------------------------------------------------------------------------
  // split() with no argument

  /** Length of the run of non-whitespace characters at the start of `s`. */
  function TokenLength(s: string): (n: nat)
    ensures n <= |s|
    ensures forall i :: 0 <= i < n ==> !IsWs(s[i])
    ensures n == |s| || IsWs(s[n])
  {
    if |s| == 0 || IsWs(s[0]) then 0 else 1 + TokenLength(s[1..])
  }

  /** `s.split()`: the maximal runs of non-whitespace, in order. */
  function SplitWs(s: string): (tokens: seq<string>)
    ensures forall i :: 0 <= i < |tokens| ==> tokens[i] != [] && NoWs(tokens[i])
    decreases |s|
  {
    if |s| == 0 then []
    else if IsWs(s[0]) then SplitWs(s[1..])
    else
      var n := TokenLength(s);
      [s[..n]] + SplitWs(s[n..])
  }

  /** Reference definition of what `split()` keeps: every non-whitespace character. */
  function RemoveWs(s: string): string
  {
    if |s| == 0 then "" else if IsWs(s[0]) then RemoveWs(s[1..]) else [s[0]] + RemoveWs(s[1..])
  }

  function Concat(parts: seq<string>): string
  {
    if |parts| == 0 then "" else parts[0] + Concat(parts[1..])
  }

  lemma {:induction false} RemoveWsAppend(a: string, b: string)
    ensures RemoveWs(a + b) == RemoveWs(a) + RemoveWs(b)
    decreases |a|
  {
    if |a| == 0 {
      assert a + b == b;
    } else {
      assert (a + b)[0] == a[0] && (a + b)[1..] == a[1..] + b;
      RemoveWsAppend(a[1..], b);
    }
  }

  lemma {:induction false} RemoveWsOfToken(t: string)
    requires NoWs(t)
    ensures RemoveWs(t) == t
    decreases |t|
  {
    if |t| > 0 {
      RemoveWsOfToken(t[1..]);
      assert [t[0]] + t[1..] == t;
    }
  }

  /** The tokens of `split()` put back together are the text without its whitespace. */
  lemma {:induction false} SplitWsConcat(s: string)
    ensures Concat(SplitWs(s)) == RemoveWs(s)
    decreases |s|
  {
    if |s| == 0 {
    } else if IsWs(s[0]) {
      SplitWsConcat(s[1..]);
    } else {
      var n := TokenLength(s);
      var tokens := SplitWs(s);
      assert tokens[1..] == SplitWs(s[n..]);
      SplitWsConcat(s[n..]);
      assert s == s[..n] + s[n..];
      RemoveWsAppend(s[..n], s[n..]);
      RemoveWsOfToken(s[..n]);
    }
  }

  /** The first run of `x + y` is that of `x` when it ends inside `x` or
      `y` starts with whitespace. */
  lemma {:induction false} TokenLengthPrefix(x: string, y: string)
    requires TokenLength(x) < |x| || (y != [] && IsWs(y[0]))
    ensures TokenLength(x + y) == TokenLength(x)
    decreases |x|
  {
    if |x| == 0 {
      assert x + y == y;
    } else if !IsWs(x[0]) {
      assert (x + y)[0] == x[0] && (x + y)[1..] == x[1..] + y;
      TokenLengthPrefix(x[1..], y);
    }
  }

  /** Whitespace separates tokens: text on either side of a whitespace
      character never forms one token, so the runs `split()` returns are
      maximal. */
  lemma {:induction false} SplitWsAtWs(a: string, c: char, b: string)
    requires IsWs(c)
    ensures SplitWs(a + [c] + b) == SplitWs(a) + SplitWs(b)
    decreases |a|
  {
    var s := a + [c] + b;
    if |a| == 0 {
      assert s == [c] + b && s[1..] == b;
    } else if IsWs(a[0]) {
      assert s[0] == a[0] && s[1..] == a[1..] + [c] + b;
      SplitWsAtWs(a[1..], c, b);
    } else {
      TokenLengthPrefix(a, [c] + b);
      assert s == a + ([c] + b);
      var n := TokenLength(a);
      assert s[..n] == a[..n] && s[n..] == a[n..] + [c] + b;
      SplitWsAtWs(a[n..], c, b);
    }
  }

  /** A non-empty text without whitespace is one token. */
  lemma SplitWsOfToken(t: string)
    requires t != [] && NoWs(t)
    ensures SplitWs(t) == [t]
  {
    assert TokenLength(t) == |t|;
    assert t[..|t|] == t;
  }

  // ---------------------------------------------------------------------------
  // str(n)

  function DigitChar(d: nat): char
    requires d < 10
  {
    "0123456789"[d]
  }

  /** `str(n)` for a natural number: its decimal digits, most significant first. */
  function NatToString(n: nat): (s: string)
    ensures IsDigits(s)
  {
    if n < 10 then [DigitChar(n)] else NatToString(n / 10) + [DigitChar(n % 10)]
  }
}
