/** String operations of Python and JavaScript that the model relies on.
    Strings are sequences of Unicode scalar values (Python's code points). */
module Text {
  import opened Wrappers

  // ---------------------------------------------------------------------
  // Whitespace: the two languages disagree on a few characters
  // ---------------------------------------------------------------------

  /** Python's `str.isspace()`, the set `str.strip()` removes: the separators of
      Unicode category Zs and the characters of bidirectional class WS, B or S. */
  predicate IsPySpace(c: char) {
    || c == '\t' || c == '\n' || c == '\U{B}' || c == '\U{C}' || c == '\r'
    || ('\U{1C}' <= c <= '\U{1F}') || c == ' ' || c == '\U{85}' || c == '\U{A0}'
    || c == '\U{1680}' || ('\U{2000}' <= c <= '\U{200A}')
    || c == '\U{2028}' || c == '\U{2029}' || c == '\U{202F}' || c == '\U{205F}'
    || c == '\U{3000}'
  }

  /** JavaScript's WhiteSpace and LineTerminator characters: what `String.prototype.trim`
      removes, what `\s` matches in a regular expression and what `parseInt` skips. */
  predicate IsJsSpace(c: char) {
    || c == '\t' || c == '\n' || c == '\U{B}' || c == '\U{C}' || c == '\r'
    || c == ' ' || c == '\U{A0}' || c == '\U{FEFF}'
    || c == '\U{1680}' || ('\U{2000}' <= c <= '\U{200A}')
    || c == '\U{2028}' || c == '\U{2029}' || c == '\U{202F}' || c == '\U{205F}'
    || c == '\U{3000}'
  }

  /** Every character of `s` is whitespace in the sense of `ws`. */
  predicate AllSpace(s: string, ws: char -> bool) {
    forall i :: 0 <= i < |s| ==> ws(s[i])
  }

  lemma AllSpaceConcat(a: string, b: string, ws: char -> bool)
    requires AllSpace(a, ws) && AllSpace(b, ws)
    ensures AllSpace(a + b, ws)
  {
    forall i | 0 <= i < |a + b| ensures ws((a + b)[i]) {
      if i < |a| { assert (a + b)[i] == a[i]; } else { assert (a + b)[i] == b[i - |a|]; }
    }
  }

  /** `s` neither starts nor ends with whitespace in the sense of `ws`. */
  predicate IsTrimmed(s: string, ws: char -> bool) {
    s == [] || (!ws(s[0]) && !ws(s[|s| - 1]))
  }

  // ---------------------------------------------------------------------
  // Trimming
  // ---------------------------------------------------------------------

  /** `s` without its leading whitespace. */
  function TrimStart(s: string, ws: char -> bool): (r: string)
    ensures |r| <= |s| && r == s[|s| - |r|..]
    ensures AllSpace(s[..|s| - |r|], ws)
    ensures r == [] || !ws(r[0])
    decreases |s|
  {
    if s != [] && ws(s[0]) then
      var r := TrimStart(s[1..], ws);
      SpaceThenTail(s, |r|, ws);
      r
    else
      s
  }

  /** Whitespace in front of what the tail of `s` leaves untrimmed. */
  lemma SpaceThenTail(s: string, n: nat, ws: char -> bool)
    requires s != [] && ws(s[0]) && n < |s|
    requires AllSpace(s[1..][..|s| - 1 - n], ws)
    ensures s[1..][|s| - 1 - n..] == s[|s| - n..]
    ensures AllSpace(s[..|s| - n], ws)
  {
    var p := s[..|s| - n];
    forall i | 0 <= i < |p| ensures ws(p[i]) {
      if i > 0 { assert p[i] == s[1..][..|s| - 1 - n][i - 1]; }
    }
  }

  /** `s` without its trailing whitespace. */
  function TrimEnd(s: string, ws: char -> bool): (r: string)
    ensures |r| <= |s| && r == s[..|r|]
    ensures AllSpace(s[|r|..], ws)
    ensures r == [] || !ws(r[|r| - 1])
    decreases |s|
  {
    if s != [] && ws(s[|s| - 1]) then
      var r := TrimEnd(s[..|s| - 1], ws);
      TailThenSpace(s, |r|, ws);
      r
    else
      s
  }

  /** Whitespace after what the front of `s` leaves untrimmed. */
  lemma TailThenSpace(s: string, n: nat, ws: char -> bool)
    requires s != [] && ws(s[|s| - 1]) && n < |s|
    requires AllSpace(s[..|s| - 1][n..], ws)
    ensures s[..|s| - 1][..n] == s[..n]
    ensures AllSpace(s[n..], ws)
  {
    var p := s[n..];
    forall i | 0 <= i < |p| ensures ws(p[i]) {
      if i < |p| - 1 { assert p[i] == s[..|s| - 1][n..][i]; }
    }
  }

  /** `s` without leading and trailing whitespace. */
  function Trim(s: string, ws: char -> bool): (r: string)
    ensures IsTrimmed(r, ws) && |r| <= |s|
  {
    TrimEnd(TrimStart(s, ws), ws)
  }

  /** Python's `s.strip()`. */
  function PyStrip(s: string): string {
    Trim(s, IsPySpace)
  }

  /** JavaScript's `s.trim()`. */
  function JsTrim(s: string): string {
    Trim(s, IsJsSpace)
  }

  /** Trimming removes exactly the whitespace: it yields the empty string iff
      `s` is all whitespace. */
  lemma {:induction false} TrimEmptyIff(s: string, ws: char -> bool)
    ensures Trim(s, ws) == [] <==> AllSpace(s, ws)
  {
    var a := TrimStart(s, ws);
    assert s[..|s|] == s;
    assert a[0..] == a;
  }

  /** A string that is already trimmed is left alone. */
  lemma TrimOfTrimmed(s: string, ws: char -> bool)
    requires IsTrimmed(s, ws)
    ensures Trim(s, ws) == s
  {
  }

  /** Leading whitespace in front of a string that does not start with whitespace is cut. */
  lemma {:induction false} TrimStartAfterSpace(w: string, x: string, ws: char -> bool)
    requires AllSpace(w, ws) && (x == [] || !ws(x[0]))
    ensures TrimStart(w + x, ws) == x
    decreases |w|
  {
    if w == [] {
      assert w + x == x;
    } else {
      assert (w + x)[1..] == w[1..] + x;
      TrimStartAfterSpace(w[1..], x, ws);
    }
  }

  /** Trailing whitespace after a string that does not end with whitespace is cut. */
  lemma {:induction false} TrimEndBeforeSpace(x: string, w: string, ws: char -> bool)
    requires AllSpace(w, ws) && (x == [] || !ws(x[|x| - 1]))
    ensures TrimEnd(x + w, ws) == x
    decreases |w|
  {
    if w == [] {
      assert x + w == x;
    } else {
      assert (x + w)[..|x + w| - 1] == x + w[..|w| - 1];
      TrimEndBeforeSpace(x, w[..|w| - 1], ws);
    }
  }

  lemma TrimStartDecompose(s: string, ws: char -> bool) returns (w: string)
    ensures s == w + TrimStart(s, ws) && AllSpace(w, ws)
  {
    var u := TrimStart(s, ws);
    w := s[..|s| - |u|];
    assert s == s[..|s| - |u|] + s[|s| - |u|..];
  }

  lemma TrimEndDecompose(s: string, ws: char -> bool) returns (w: string)
    ensures s == TrimEnd(s, ws) + w && AllSpace(w, ws)
  {
    var r := TrimEnd(s, ws);
    w := s[|r|..];
    assert s == s[..|r|] + s[|r|..];
  }

  /** Trimming removes whitespace from the two ends and nothing else. */
  lemma TrimDecompose(s: string, ws: char -> bool) returns (w1: string, w2: string)
    ensures s == w1 + Trim(s, ws) + w2
    ensures AllSpace(w1, ws) && AllSpace(w2, ws)
  {
    w1 := TrimStartDecompose(s, ws);
    w2 := TrimEndDecompose(TrimStart(s, ws), ws);
    ConcatAssoc(w1, Trim(s, ws), w2);
  }

  /** Trailing whitespace after trimmed text is all that trimming removes. */
  lemma TrimTrailing(s: string, w: string, ws: char -> bool)
    requires IsTrimmed(s, ws) && AllSpace(w, ws)
    ensures Trim(s + w, ws) == s
  {
    if s == [] {
      assert s + w == w;
      TrimEmptyIff(w, ws);
    } else {
      var x := s + w;
      assert x[0] == s[0];
      assert TrimStart(x, ws) == x;
      TrimEndBeforeSpace(s, w, ws);
    }
  }


  // ---------------------------------------------------------------------
  // Splitting on and joining with one separator character
  // ---------------------------------------------------------------------

  /** The pieces of `s` between occurrences of `sep`, as Python's `s.split(sep)`
      and JavaScript's `s.split(sep)` give them for a one-character separator:
      the empty string splits into one empty piece. */
  function Split(s: string, sep: char): (r: seq<string>)
    ensures |r| >= 1
    ensures forall i :: 0 <= i < |r| ==> sep !in r[i]
    decreases |s|
  {
    if s == [] then [[]]
    else
      var rest := Split(s[1..], sep);
      if s[0] == sep then [[]] + rest else [[s[0]] + rest[0]] + rest[1..]
  }

  /** `xs` joined with `sep` between neighbours (Python's `sep.join(xs)`,
      JavaScript's `xs.join(sep)`). */
  function Join(xs: seq<string>, sep: char): string
    decreases |xs|
  {
    if |xs| == 0 then []
    else if |xs| == 1 then xs[0]
    else xs[0] + [sep] + Join(xs[1..], sep)
  }

  /** Regrouping a concatenation, in a context of its own. */
  lemma ConcatAssoc(a: string, b: string, c: string)
    ensures a + b + c == a + (b + c)
  {
  }

  /** Joining a non-empty list behind one more piece. */
  lemma JoinCons(x: string, xs: seq<string>, sep: char)
    requires |xs| >= 1
    ensures Join([x] + xs, sep) == x + [sep] + Join(xs, sep)
  {
    assert ([x] + xs)[1..] == xs;
  }

  /** A string without the separator is a single piece. */
  lemma {:induction false} SplitWithoutSeparator(s: string, sep: char)
    requires sep !in s
    ensures Split(s, sep) == [s]
    decreases |s|
  {
    if s != [] {
      SplitWithoutSeparator(s[1..], sep);
      assert [s[0]] + s[1..] == s;
    }
  }

  /** Splitting distributes over a separator occurrence. */
  lemma {:induction false} SplitAround(a: string, b: string, sep: char)
    ensures Split(a + [sep] + b, sep) == Split(a, sep) + Split(b, sep)
    decreases |a|
  {
    if a == [] {
      assert [] + [sep] + b == [sep] + b;
      assert ([sep] + b)[1..] == b;
    } else {
      assert (a + [sep] + b)[1..] == a[1..] + [sep] + b;
      SplitAround(a[1..], b, sep);
    }
  }

  /** Leading pieces free of the separator come back unchanged when the
      joined text is split again. */
  lemma {:induction false} SplitLeadingPieces(head: seq<string>, rest: seq<string>, sep: char)
    requires |rest| >= 1
    requires forall i :: 0 <= i < |head| ==> sep !in head[i]
    ensures Split(Join(head + rest, sep), sep) == head + Split(Join(rest, sep), sep)
    decreases |head|
  {
    if head == [] {
      assert head + rest == rest;
    } else {
      SplitLeadingPieces(head[1..], rest, sep);
      ConsAppend(head, rest);
      ConsAppend(head, Split(Join(rest, sep), sep));
      SplitConsPiece(head[0], head[1..] + rest, sep);
    }
  }

  lemma ConsAppend<T>(head: seq<T>, rest: seq<T>)
    requires head != []
    ensures head + rest == [head[0]] + (head[1..] + rest)
  {
  }

  lemma SplitConsPiece(x: string, xs: seq<string>, sep: char)
    requires sep !in x && |xs| >= 1
    ensures Split(Join([x] + xs, sep), sep) == [x] + Split(Join(xs, sep), sep)
  {
    JoinCons(x, xs, sep);
    SplitAround(x, Join(xs, sep), sep);
    SplitWithoutSeparator(x, sep);
  }

  /** Joining pieces that contain no separator and splitting again gives the pieces back. */
  lemma {:induction false} SplitJoin(xs: seq<string>, sep: char)
    requires |xs| >= 1
    requires forall i :: 0 <= i < |xs| ==> sep !in xs[i]
    ensures Split(Join(xs, sep), sep) == xs
    decreases |xs|
  {
    if |xs| == 1 {
      SplitWithoutSeparator(xs[0], sep);
    } else {
      SplitAround(xs[0], Join(xs[1..], sep), sep);
      SplitWithoutSeparator(xs[0], sep);
      SplitJoin(xs[1..], sep);
    }
  }

  /** Splitting and joining again gives the original string back. */
  lemma {:induction false} JoinSplit(s: string, sep: char)
    ensures Join(Split(s, sep), sep) == s
    decreases |s|
  {
    if s != [] {
      JoinSplit(s[1..], sep);
      var rest := Split(s[1..], sep);
      if s[0] == sep {
        assert Join([[]] + rest, sep) == [] + [sep] + Join(rest, sep);
      } else if |rest| == 1 {
        assert Split(s, sep) == [[s[0]] + rest[0]];
      } else {
        assert rest == [rest[0]] + rest[1..];
        assert Join(rest, sep) == rest[0] + [sep] + Join(rest[1..], sep);
      }
    }
  }

  // ---------------------------------------------------------------------
  // Prefixes, searching and replacing
  // ---------------------------------------------------------------------

  /** Python's `s[:n]` for a non-negative `n`: the first `n` characters, or all of `s`. */
  function Take(s: string, n: nat): (r: string)
    ensures |r| == if |s| < n then |s| else n
    ensures r <= s
  {
    if |s| < n then s else s[..n]
  }

  /** `pat` occurs in `s` starting at index `i`. */
  predicate OccursAt(s: string, pat: string, i: nat) {
    i + |pat| <= |s| && s[i..i + |pat|] == pat
  }

  /** The first index at or after `from` where `pat` occurs in `s`. */
  function FindFrom(s: string, pat: string, from: nat): (r: Option<nat>)
    ensures r.Some? ==> from <= r.value && OccursAt(s, pat, r.value)
    ensures r.Some? ==> forall k :: from <= k < r.value ==> !OccursAt(s, pat, k)
    ensures r.None? ==> forall k :: from <= k ==> !OccursAt(s, pat, k)
    decreases |s| - from
  {
    if from + |pat| > |s| then None
    else if OccursAt(s, pat, from) then Some(from)
    else FindFrom(s, pat, from + 1)
  }

  /** A first occurrence at or after `from` is the one found. */
  lemma {:induction false} FindFromFirst(s: string, pat: string, from: nat, j: nat)
    requires from <= j && OccursAt(s, pat, j)
    requires forall k :: from <= k < j ==> !OccursAt(s, pat, k)
    ensures FindFrom(s, pat, from) == Some(j)
    decreases j - from
  {
    if from < j {
      FindFromFirst(s, pat, from + 1, j);
    }
  }

  /** JavaScript's `s.replace(pat, rep)` with string arguments and a replacement
      without `$` patterns: only the FIRST occurrence of `pat` is replaced. */
  function ReplaceFirst(s: string, pat: string, rep: string): string {
    match FindFrom(s, pat, 0)
    case None => s
    case Some(i) => s[..i] + rep + s[i + |pat|..]
  }

  /** Python's `s.replace(from, to)` for one-character arguments: every occurrence. */
  function ReplaceChar(s: string, from: char, to: char): (r: string)
    ensures |r| == |s|
    ensures forall i :: 0 <= i < |s| ==> r[i] == if s[i] == from then to else s[i]
  {
    seq(|s|, i requires 0 <= i < |s| => if s[i] == from then to else s[i])
  }

  /** ASCII-only `lower()`. Python lowers all of Unicode, but the only non-ASCII
      character whose lower case is an ASCII letter is the Kelvin sign (to `k`),
      so comparisons against lower-case words without `k` agree. */
  function AsciiLower(s: string): (r: string)
    ensures |r| == |s|
  {
    seq(|s|, i requires 0 <= i < |s| => if 'A' <= s[i] <= 'Z' then (s[i] as int + 32) as char else s[i])
  }

  // ---------------------------------------------------------------------
  // Decimal digits
  // ---------------------------------------------------------------------

  predicate IsDigit(c: char) {
    '0' <= c <= '9'
  }

  predicate AllDigits(s: string) {
    forall i :: 0 <= i < |s| ==> IsDigit(s[i])
  }

  /** The length of the run of decimal digits at the start of `s`. */
  function DigitRun(s: string): (n: nat)
    ensures n <= |s| && AllDigits(s[..n])
    ensures n == |s| || !IsDigit(s[n])
    decreases |s|
  {
    if s != [] && IsDigit(s[0]) then
      var n := 1 + DigitRun(s[1..]);
      assert s[..n] == [s[0]] + s[1..][..n - 1];
      n
    else
      0
  }

  /** The number a string of decimal digits denotes. */
  function DigitsValue(ds: string): nat
    requires AllDigits(ds)
    decreases |ds|
  {
    if ds == [] then 0
    else 10 * DigitsValue(ds[..|ds| - 1]) + (ds[|ds| - 1] as int - '0' as int)
  }

  /** The shortest decimal representation of `n`, as Python's `str(n)` and
      JavaScript's `String(n)` write it. */
  function NatToString(n: nat): (s: string)
    ensures |s| >= 1 && AllDigits(s)
    ensures s[0] != '0' || n == 0
  {
    if n < 10 then [('0' as int + n) as char]
    else NatToString(n / 10) + [('0' as int + n % 10) as char]
  }

  /** Reading back a written number gives the number. */
  lemma {:induction false} DigitsValueOfNatToString(n: nat)
    ensures DigitsValue(NatToString(n)) == n
  {
    if n >= 10 {
      var s := NatToString(n / 10);
      var t := NatToString(n);
      assert t[..|t| - 1] == s;
      DigitsValueOfNatToString(n / 10);
    }
  }

  lemma NoBreakInPart(w1: string, s: string, w2: string)
    requires '\n' !in w1 + s + w2
    ensures '\n' !in s
  {
    forall i | 0 <= i < |s| ensures s[i] != '\n' {
      assert s[i] == (w1 + s + w2)[|w1| + i];
    }
  }

  /** Every prefix of a text on one line is on one line. */
  lemma PrefixOneLine(s: string, n: nat)
    requires '\n' !in s && n <= |s|
    ensures '\n' !in s[..n]
  {
    forall i | 0 <= i < n ensures s[..n][i] != '\n' {
      assert s[..n][i] == s[i];
    }
  }

  /** Trimming keeps a text on one line. */
  lemma TrimOneLine(s: string, ws: char -> bool)
    requires '\n' !in s
    ensures '\n' !in Trim(s, ws)
  {
    var w1, w2 := TrimDecompose(s, ws);
    NoBreakInPart(w1, Trim(s, ws), w2);
  }

  /** Replacing every `from` leaves none. */
  lemma ReplaceCharRemoves(s: string, from: char, to: char)
    requires from != to
    ensures from !in ReplaceChar(s, from, to)
  {
    var r := ReplaceChar(s, from, to);
    forall i | 0 <= i < |r| ensures r[i] != from {
    }
  }
}
