/** The string operations of .NET that the core relies on, written out:
    `String.Split` and `String.Join` on one separator character, the
    `RemoveEmptyEntries` option, `String.Trim`, decimal formatting of an
    `int`, and the `Left` extension used to cap message blocks. */
module Text {

  /** `Char.IsWhiteSpace`: the Unicode space separators, the line and
      paragraph separators (U+00A0 among the space separators), and the
      control characters U+0009 to U+000D and U+0085. */
  predicate IsWhiteSpace(c: char) {
    || c == ' ' || c == '\t' || c == '\n' || c == '\U{000B}' || c == '\U{000C}' || c == '\r'
    || c == '\U{0085}' || c == '\U{00A0}' || c == '\U{1680}'
    || ('\U{2000}' <= c <= '\U{200A}')
    || c == '\U{2028}' || c == '\U{2029}' || c == '\U{202F}' || c == '\U{205F}' || c == '\U{3000}'
  }

  predicate AllWhiteSpace(s: string) {
    forall i :: 0 <= i < |s| ==> IsWhiteSpace(s[i])
  }

  /** `String.TrimStart()`: drops the leading run of white space. */
  function TrimStart(s: string): string
    decreases |s|
  {
    if s != [] && IsWhiteSpace(s[0]) then TrimStart(s[1..]) else s
  }

  /** `String.TrimEnd()`: drops the trailing run of white space. */
  function TrimEnd(s: string): string
    decreases |s|
  {
    if s != [] && IsWhiteSpace(s[|s| - 1]) then TrimEnd(s[..|s| - 1]) else s
  }

  /** TrimStart removes a prefix made only of white space, and what is
      left does not start with white space. */
  lemma {:induction false} TrimStartShape(s: string)
    ensures var r := TrimStart(s);
      |r| <= |s| && s == s[..|s| - |r|] + r && AllWhiteSpace(s[..|s| - |r|]) &&
      (r == [] || !IsWhiteSpace(r[0]))
    decreases |s|
  {
    if s != [] && IsWhiteSpace(s[0]) {
      TrimStartShape(s[1..]);
      var r := TrimStart(s);
      assert s[..|s| - |r|] == [s[0]] + s[1..][..|s| - 1 - |r|];
    }
  }

  /** TrimEnd removes a suffix made only of white space, and what is left
      does not end with white space. */
  lemma {:induction false} TrimEndShape(s: string)
    ensures var r := TrimEnd(s);
      |r| <= |s| && s == r + s[|r|..] && AllWhiteSpace(s[|r|..]) &&
      (r == [] || !IsWhiteSpace(r[|r| - 1]))
    decreases |s|
  {
    if s != [] && IsWhiteSpace(s[|s| - 1]) {
      TrimEndShape(s[..|s| - 1]);
      var r := TrimEnd(s);
      assert s[|r|..] == s[..|s| - 1][|r|..] + [s[|s| - 1]];
    }
  }

  /** `String.Trim()`. */
  function Trim(s: string): string {
    TrimEnd(TrimStart(s))
  }

  /** White space in front of a string that starts with a non-space
      character is exactly what TrimStart removes. */
  lemma {:induction false} TrimStartPadded(ws: string, t: string)
    requires AllWhiteSpace(ws)
    requires t != [] && !IsWhiteSpace(t[0])
    ensures TrimStart(ws + t) == t
    decreases |ws|
  {
    if ws == [] {
      assert ws + t == t;
    } else {
      assert (ws + t)[1..] == ws[1..] + t;
      TrimStartPadded(ws[1..], t);
    }
  }

  /** Dually for TrimEnd. */
  lemma {:induction false} TrimEndPadded(t: string, ws: string)
    requires AllWhiteSpace(ws)
    requires t != [] && !IsWhiteSpace(t[|t| - 1])
    ensures TrimEnd(t + ws) == t
    decreases |ws|
  {
    if ws == [] {
      assert t + ws == t;
    } else {
      assert (t + ws)[..|t + ws| - 1] == t + ws[..|ws| - 1];
      TrimEndPadded(t, ws[..|ws| - 1]);
    }
  }

  /** Every string is its leading white space, its trimmed form and its
      trailing white space, in that order; the trimmed form neither starts
      nor ends with white space. */
  lemma TrimDecomposes(s: string)
    ensures var t := Trim(s); exists a, b ::
      s == a + t + b && AllWhiteSpace(a) && AllWhiteSpace(b) &&
      (t == [] || (!IsWhiteSpace(t[0]) && !IsWhiteSpace(t[|t| - 1])))
  {
    var u := TrimStart(s);
    TrimStartShape(s);
    var a := s[..|s| - |u|];
    assert s == a + u && AllWhiteSpace(a);
    var t := TrimEnd(u);
    TrimEndShape(u);
    var b := u[|t|..];
    assert u == t + b && AllWhiteSpace(b);
    assert s == a + t + b;
    assert t == Trim(s);
    if t != [] {
      assert t[0] == u[0];
      assert !IsWhiteSpace(t[0]) && !IsWhiteSpace(t[|t| - 1]);
    }
  }

  /** Conversely, padding a word that neither starts nor ends with white
      space is undone by Trim. */
  lemma TrimPadded(a: string, w: string, b: string)
    requires AllWhiteSpace(a) && AllWhiteSpace(b)
    requires w != [] && !IsWhiteSpace(w[0]) && !IsWhiteSpace(w[|w| - 1])
    ensures Trim(a + w + b) == w
  {
    assert a + w + b == a + (w + b);
    TrimStartPadded(a, w + b);
    TrimEndPadded(w, b);
  }

  /** `String.Split(sep)` without options: the maximal separator-free
      pieces, empty ones included, so there is always at least one. */
  function Split(s: string, sep: char): (parts: seq<string>)
    ensures |parts| >= 1
    ensures forall k :: 0 <= k < |parts| ==> sep !in parts[k]
    decreases |s|
  {
    if s == [] then [[]]
    else
      var rest := Split(s[1..], sep);
      if s[0] == sep then [[]] + rest else [[s[0]] + rest[0]] + rest[1..]
  }

  /** `String.Join(sep, parts)`. */
  function Join(parts: seq<string>, sep: char): string
    decreases |parts|
  {
    if parts == [] then []
    else if |parts| == 1 then parts[0]
    else parts[0] + [sep] + Join(parts[1..], sep)
  }

  /** Joining the pieces again gives back the string that was split. */
  lemma {:induction false} JoinSplit(s: string, sep: char)
    ensures Join(Split(s, sep), sep) == s
    decreases |s|
  {
    if s != [] {
      JoinSplit(s[1..], sep);
      var rest := Split(s[1..], sep);
      if s[0] == sep {
        assert s == [sep] + s[1..];
      } else if |rest| == 1 {
        assert s == [s[0]] + rest[0];
      } else {
        assert Join(rest, sep) == rest[0] + [sep] + Join(rest[1..], sep);
        assert s == [s[0]] + s[1..];
      }
    }
  }

  /** Splitting a string with no separator yields that string alone. */
  lemma {:induction false} SplitWithoutSeparator(s: string, sep: char)
    requires sep !in s
    ensures Split(s, sep) == [s]
    decreases |s|
  {
    if s != [] {
      assert sep !in s[1..] by {
        forall k | 0 <= k < |s[1..]| ensures s[1..][k] != sep { assert s[1..][k] == s[k + 1]; }
      }
      SplitWithoutSeparator(s[1..], sep);
      assert [s[0]] + s[1..] == s;
    }
  }

  /** Splitting `a + sep + b`, where `a` holds no separator, yields `a`
      followed by the pieces of `b`. */
  lemma {:induction false} SplitAtFirstSeparator(a: string, sep: char, b: string)
    requires sep !in a
    ensures Split(a + [sep] + b, sep) == [a] + Split(b, sep)
    decreases |a|
  {
    if a == [] {
      assert (a + [sep] + b)[1..] == b;
    } else {
      assert (a + [sep] + b)[1..] == a[1..] + [sep] + b;
      assert sep !in a[1..] by {
        forall k | 0 <= k < |a[1..]| ensures a[1..][k] != sep { assert a[1..][k] == a[k + 1]; }
      }
      SplitAtFirstSeparator(a[1..], sep, b);
      assert [a[0]] + a[1..] == a;
    }
  }

  /** Split undoes Join when no piece holds the separator. */
  lemma {:induction false} SplitJoin(parts: seq<string>, sep: char)
    requires |parts| >= 1
    requires forall k :: 0 <= k < |parts| ==> sep !in parts[k]
    ensures Split(Join(parts, sep), sep) == parts
    decreases |parts|
  {
    if |parts| == 1 {
      SplitWithoutSeparator(parts[0], sep);
    } else {
      SplitJoin(parts[1..], sep);
      SplitAtFirstSeparator(parts[0], sep, Join(parts[1..], sep));
      assert [parts[0]] + parts[1..] == parts;
    }
  }

  /** The `StringSplitOptions.RemoveEmptyEntries` filter. */
  function NonEmpty(parts: seq<string>): (r: seq<string>)
    ensures |r| <= |parts|
    ensures forall k :: 0 <= k < |r| ==> r[k] != [] && r[k] in parts
    decreases |parts|
  {
    if parts == [] then []
    else if parts[0] == [] then NonEmpty(parts[1..])
    else [parts[0]] + NonEmpty(parts[1..])
  }

  /** The filter works piece by piece: it distributes over concatenation,
      drops an empty piece and keeps a non-empty one, so it keeps every
      non-empty piece, in order. */
  lemma {:induction false} NonEmptyAppend(a: seq<string>, b: seq<string>)
    ensures NonEmpty(a + b) == NonEmpty(a) + NonEmpty(b)
    decreases |a|
  {
    if a != [] {
      assert (a + b)[0] == a[0];
      assert (a + b)[1..] == a[1..] + b;
      NonEmptyAppend(a[1..], b);
    } else {
      assert a + b == b;
    }
  }

  lemma NonEmptySingle(piece: string)
    ensures NonEmpty([piece]) == (if piece == [] then [] else [piece])
  {
    assert [piece][1..] == [];
  }

  /** `s.Split(sep, StringSplitOptions.RemoveEmptyEntries)`. */
  function SplitNonEmpty(s: string, sep: char): seq<string> {
    NonEmpty(Split(s, sep))
  }

  /** The string with every occurrence of `c` deleted. */
  function Without(s: string, c: char): string
    decreases |s|
  {
    if s == [] then [] else (if s[0] == c then [] else [s[0]]) + Without(s[1..], c)
  }

  /** The concatenation of a sequence of strings. */
  function Concat(parts: seq<string>): string
    decreases |parts|
  {
    if parts == [] then [] else parts[0] + Concat(parts[1..])
  }

  lemma {:induction false} ConcatNonEmpty(parts: seq<string>)
    ensures Concat(NonEmpty(parts)) == Concat(parts)
    decreases |parts|
  {
    if parts != [] { ConcatNonEmpty(parts[1..]); }
  }

  lemma {:induction false} WithoutAppend(a: string, b: string, c: char)
    ensures Without(a + b, c) == Without(a, c) + Without(b, c)
    decreases |a|
  {
    if a == [] {
      assert a + b == b;
    } else {
      assert (a + b)[1..] == a[1..] + b;
      WithoutAppend(a[1..], b, c);
    }
  }

  lemma {:induction false} WithoutAbsent(s: string, c: char)
    requires c !in s
    ensures Without(s, c) == s
    decreases |s|
  {
    if s != [] {
      assert c !in s[1..] by {
        forall k | 0 <= k < |s[1..]| ensures s[1..][k] != c { assert s[1..][k] == s[k + 1]; }
      }
      WithoutAbsent(s[1..], c);
      assert [s[0]] + s[1..] == s;
    }
  }

  /** Deleting the separators from a joined string concatenates the pieces. */
  lemma {:induction false} WithoutJoin(parts: seq<string>, sep: char)
    requires forall k :: 0 <= k < |parts| ==> sep !in parts[k]
    ensures Without(Join(parts, sep), sep) == Concat(parts)
    decreases |parts|
  {
    if |parts| == 1 {
      WithoutAbsent(parts[0], sep);
      assert Concat(parts) == parts[0] + Concat([]);
    } else if |parts| > 1 {
      WithoutJoin(parts[1..], sep);
      WithoutAppend(parts[0] + [sep], Join(parts[1..], sep), sep);
      WithoutAppend(parts[0], [sep], sep);
      WithoutAbsent(parts[0], sep);
      assert Without([sep], sep) == [] + Without([], sep);
    }
  }

  /** The pieces kept by `Split(sep, RemoveEmptyEntries)` are non-empty and
      separator-free, and in their original order they make up exactly the
      characters of the input other than the separators. */
  lemma SplitNonEmptyCharacterized(s: string, sep: char)
    ensures forall k :: 0 <= k < |SplitNonEmpty(s, sep)| ==>
      SplitNonEmpty(s, sep)[k] != [] && sep !in SplitNonEmpty(s, sep)[k]
    ensures Concat(SplitNonEmpty(s, sep)) == Without(s, sep)
  {
    var parts := Split(s, sep);
    JoinSplit(s, sep);
    WithoutJoin(parts, sep);
    ConcatNonEmpty(parts);
  }

  /** `Left(n)`: the first `n` characters, or the whole string if shorter. */
  function Left(s: string, n: nat): (r: string)
    ensures |r| == if |s| < n then |s| else n
    ensures r <= s
  {
    if |s| <= n then s else s[..n]
  }

  /** The decimal digit character for 0..9. */
  function Digit(d: nat): (c: char)
    requires d < 10
    ensures '0' <= c <= '9'
  {
    ['0', '1', '2', '3', '4', '5', '6', '7', '8', '9'][d]
  }

  function DigitValue(c: char): (d: nat)
    ensures d < 10
  {
    if '0' <= c <= '9' then (c as int - '0' as int) else 0
  }

  /** The decimal representation of a natural number, without leading zeros. */
  function NatToString(n: nat): (s: string)
    ensures s != []
    ensures forall k :: 0 <= k < |s| ==> '0' <= s[k] <= '9'
    decreases n
  {
    if n < 10 then [Digit(n)] else NatToString(n / 10) + [Digit(n % 10)]
  }

  /** Zero is written "0", and no other number has a leading zero. */
  lemma NatToStringNoLeadingZero(n: nat)
    ensures n == 0 <==> NatToString(n) == "0"
    ensures n > 0 ==> NatToString(n)[0] != '0'
  {
    if n >= 10 {
      NatToStringLeadsWithTheTopDigit(n);
    }
  }

  lemma {:induction false} NatToStringLeadsWithTheTopDigit(n: nat)
    requires n >= 10
    ensures |NatToString(n)| >= 2 && NatToString(n)[0] != '0'
    decreases n
  {
    var q := n / 10;
    assert NatToString(n) == NatToString(q) + [Digit(n % 10)];
    if q >= 10 {
      NatToStringLeadsWithTheTopDigit(q);
    } else {
      assert NatToString(q) == [Digit(q)] && q >= 1;
    }
  }

  /** `int.ToString()` as string interpolation formats an `int`, for a
      culture whose negative sign is '-' (the invariant culture and most
      others); the culture in force is assumed, not modelled. */
  function IntToString(n: int): string {
    if n < 0 then "-" + NatToString(-n) else NatToString(n)
  }

  /** The value of a string of decimal digits. */
  function ParseNat(s: string): nat
    decreases |s|
  {
    if s == [] then 0 else 10 * ParseNat(s[..|s| - 1]) + DigitValue(s[|s| - 1])
  }

  function ParseInt(s: string): int {
    if s != [] && s[0] == '-' then -(ParseNat(s[1..]) as int) else ParseNat(s)
  }

  lemma {:induction false} ParseNatToString(n: nat)
    ensures ParseNat(NatToString(n)) == n
    decreases n
  {
    if n >= 10 {
      ParseNatToString(n / 10);
      var s := NatToString(n);
      assert s[..|s| - 1] == NatToString(n / 10);
    }
  }

  /** Decimal formatting can be read back, so distinct numbers format to
      distinct strings. */
  lemma IntToStringRoundTrip(n: int)
    ensures ParseInt(IntToString(n)) == n
  {
    if n < 0 {
      NegativeRoundTrip(n);
    } else {
      ParseNatToString(n);
      NatToStringIsUnsigned(n);
    }
  }

  lemma NegativeRoundTrip(n: int)
    requires n < 0
    ensures ParseInt(IntToString(n)) == n
  {
    var m: nat := -n;
    var t := NatToString(m);
    assert IntToString(n) == "-" + t;
    ParseNegated(t);
    ParseNatToString(m);
  }

  lemma ParseNegated(t: string)
    ensures ParseInt("-" + t) == -(ParseNat(t) as int)
  {
    var s := "-" + t;
    assert s[0] == '-' && s[1..] == t;
  }

  lemma NatToStringIsUnsigned(n: nat)
    ensures ParseInt(NatToString(n)) == ParseNat(NatToString(n))
  {
    var digits := NatToString(n);
    assert '0' <= digits[0] <= '9';
  }

  lemma IntToStringInjective(a: int, b: int)
    ensures IntToString(a) == IntToString(b) ==> a == b
  {
    IntToStringRoundTrip(a);
    IntToStringRoundTrip(b);
  }
}
