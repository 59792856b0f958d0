/** The two text pipelines of the front end: `handleResults`, which turns the
    search response into a list of papers, and the line cleanup inside
    `handleSummarize`, which tidies the summary the back end returns. */
module App {
  import opened Wrappers
  import opened Text

  // ---------------------------------------------------------------------
  // Lists
  // ---------------------------------------------------------------------

  /** JavaScript's `xs.filter(p)`: the elements satisfying `p`, in order. */
  function Filter<T>(p: T -> bool, xs: seq<T>): (r: seq<T>)
    ensures |r| <= |xs|
    ensures forall i :: 0 <= i < |r| ==> p(r[i]) && r[i] in xs
    ensures forall x :: x in xs && p(x) ==> x in r
    decreases |xs|
  {
    if xs == [] then []
    else (if p(xs[0]) then [xs[0]] else []) + Filter(p, xs[1..])
  }

  /** A list whose every element passes the filter comes through whole. */
  lemma {:induction false} FilterAll<T>(p: T -> bool, xs: seq<T>)
    requires forall i :: 0 <= i < |xs| ==> p(xs[i])
    ensures Filter(p, xs) == xs
    decreases |xs|
  {
    if xs != [] {
      FilterAll(p, xs[1..]);
      assert [xs[0]] + xs[1..] == xs;
    }
  }

  /** Filtering keeps order and multiplicity: the filter of a concatenation
      is the concatenation of the filters. */
  lemma {:induction false} FilterAppend<T>(p: T -> bool, a: seq<T>, b: seq<T>)
    ensures Filter(p, a + b) == Filter(p, a) + Filter(p, b)
    decreases |a|
  {
    if a == [] {
      assert a + b == b;
    } else {
      assert (a + b)[0] == a[0] && (a + b)[1..] == a[1..] + b;
      FilterAppend(p, a[1..], b);
    }
  }

  // ---------------------------------------------------------------------
  // The search response: handleResults
  // ---------------------------------------------------------------------

  /** What the search request resolves to: a string, or any other value. */
  datatype Response = Str(body: string) | Other

  /** A JavaScript number as `parseInt` produces it. */
  datatype JsNumber = Int(value: int) | NaN

  /** One parsed search result, `{id, title}`. */
  datatype Paper = Paper(id: JsNumber, title: string)

  /** The regular expression `^\d+:\s+` matches at the start of `t`: one or more
      ASCII digits, a colon and a whitespace character. (A shorter digit run is
      followed by a digit, never by the colon, so only the full run can match.) */
  predicate StartsWithIndex(t: string) {
    var n := DigitRun(t);
    n >= 1 && n + 1 < |t| && t[n] == ':' && IsJsSpace(t[n + 1])
  }

  /** The filter of `handleResults`: a non-empty line whose trimmed form starts
      like `0: `. */
  predicate IsResultLine(line: string) {
    line != [] && StartsWithIndex(JsTrim(line))
  }

  /** The separator `/:\s+/` can start at index `i` of `s`. */
  predicate SepAt(s: string, i: nat) {
    i + 1 < |s| && s[i] == ':' && IsJsSpace(s[i + 1])
  }

  /** The first index at or after `from` where the separator starts. */
  function FindSep(s: string, from: nat): (r: Option<nat>)
    ensures r.Some? ==> from <= r.value && SepAt(s, r.value)
    ensures r.Some? ==> forall k :: from <= k < r.value ==> !SepAt(s, k)
    ensures r.None? ==> forall k :: from <= k ==> !SepAt(s, k)
    decreases |s| - from
  {
    if from + 1 >= |s| then None
    else if SepAt(s, from) then Some(from)
    else FindSep(s, from + 1)
  }

  /** Where the run of whitespace starting at `from` ends: `\s+` is greedy. */
  function SpaceRun(s: string, from: nat): (r: nat)
    requires from <= |s|
    ensures from <= r <= |s|
    ensures forall k :: from <= k < r ==> IsJsSpace(s[k])
    ensures r == |s| || !IsJsSpace(s[r])
    decreases |s| - from
  {
    if from == |s| || !IsJsSpace(s[from]) then from else SpaceRun(s, from + 1)
  }

  /** `s.split(/:\s+/, 2)`: the text before the first separator and, when there
      is one, the text between it and the next separator (or the end). */
  function SplitSep2(s: string): (r: seq<string>)
    ensures 1 <= |r| <= 2
  {
    match FindSep(s, 0)
    case None => [s]
    case Some(q) => [s[..q], PartFrom(s, SpaceRun(s, q + 1))]
  }

  /** The text of `s` from `e` up to the next separator, or to the end. */
  function PartFrom(s: string, e: nat): string
    requires e <= |s|
  {
    match FindSep(s, e)
    case None => s[e..]
    case Some(q) => s[e..q]
  }

  /** `parseInt(s, 10)`: leading whitespace is skipped, an optional sign read,
      then the longest run of decimal digits; no digits give NaN. */
  function JsParseInt(s: string): JsNumber {
    var t := TrimStart(s, IsJsSpace);
    var negative := t != [] && t[0] == '-';
    var digits := if t != [] && (t[0] == '-' || t[0] == '+') then t[1..] else t;
    var n := DigitRun(digits);
    if n == 0 then NaN
    else Int(if negative then 0 - DigitsValue(digits[..n]) else DigitsValue(digits[..n]))
  }

  /** The map step of `handleResults` on one kept line. The split runs on the
      line as it is, not on its trimmed form; a missing title part is `""`. */
  function ParseLine(line: string): Paper {
    var parts := SplitSep2(line);
    Paper(JsParseInt(parts[0]), JsTrim(if |parts| == 2 then parts[1] else []))
  }

  /** `handleResults(data)`: a string is split into lines, the lines like
      `0: Title` are kept and parsed in order; anything else gives no results. */
  function HandleResults(data: Response): seq<Paper> {
    HandleWith(ParseLine, data)
  }

  /** The pipeline of `handleResults` with `parse` as its map step. */
  function HandleWith(parse: string -> Paper, data: Response): seq<Paper> {
    match data
    case Other => []
    case Str(s) =>
      ParseAll(parse, Filter(IsResultLine, Split(s, '\n')))
  }

  /** The map step applied to each line, in order. */
  function ParseAll(parse: string -> Paper, lines: seq<string>): seq<Paper> {
    seq(|lines|, i requires 0 <= i < |lines| => parse(lines[i]))
  }

  /** The map step as its comment describes it, splitting once: the title is
      all the text after the first separator, trimmed. */
  function ParseLineIntended(line: string): Paper {
    var parts := SplitOnce(line);
    Paper(JsParseInt(parts[0]), JsTrim(if |parts| == 2 then parts[1] else []))
  }

  /** `s` split at its first separator only: the text before it and, when there
      is one, all the text after it. */
  function SplitOnce(s: string): (r: seq<string>)
    ensures 1 <= |r| <= 2
  {
    match FindSep(s, 0)
    case None => [s]
    case Some(q) => [s[..q], s[SpaceRun(s, q + 1)..]]
  }

  /** `handleResults` with the corrected map step. */
  function HandleResultsIntended(data: Response): seq<Paper> {
    HandleWith(ParseLineIntended, data)
  }

  /** The text in front of the first separator of `s`, or all of `s`. */
  function BeforeSep(s: string): string {
    match FindSep(s, 0)
    case None => s
    case Some(q) => s[..q]
  }

  /** A response that is not a string gives no results. */
  lemma NonStringGivesNothing()
    ensures HandleResults(Other) == [] && HandleResultsIntended(Other) == []
  {
  }

  /** A line of whitespace only, the empty line included, is never kept. */
  lemma BlankLinesDropped(line: string)
    requires AllSpace(line, IsJsSpace)
    ensures !IsResultLine(line)
  {
    TrimEmptyIff(line, IsJsSpace);
  }

  lemma {:induction false} DigitRunOfDigitsThen(digits: string, rest: string)
    requires AllDigits(digits)
    requires rest == [] || !IsDigit(rest[0])
    ensures DigitRun(digits + rest) == |digits|
    decreases |digits|
  {
    if digits != [] {
      assert (digits + rest)[1..] == digits[1..] + rest;
      DigitRunOfDigitsThen(digits[1..], rest);
    } else {
      assert digits + rest == rest;
    }
  }

  lemma {:induction false} FindSepSkips(s: string, from: nat, until: nat)
    requires from <= until
    requires forall k :: from <= k < until ==> !SepAt(s, k)
    ensures FindSep(s, from) == FindSep(s, until)
    decreases until - from
  {
    if from < until && from + 1 < |s| {
      FindSepSkips(s, from + 1, until);
    }
  }

  lemma {:induction false} FindSepShift(prefix: string, s: string, from: nat)
    requires from <= |s|
    ensures FindSep(prefix + s, |prefix| + from)
            == match FindSep(s, from) case None => None case Some(q) => Some(|prefix| + q)
    decreases |s| - from
  {
    if from + 1 < |s| {
      assert (prefix + s)[|prefix| + from] == s[from];
      assert (prefix + s)[|prefix| + from + 1] == s[from + 1];
      FindSepShift(prefix, s, from + 1);
    }
  }

  lemma {:induction false} SpaceRunEnds(s: string, from: nat, until: nat)
    requires from <= until <= |s|
    requires forall k :: from <= k < until ==> IsJsSpace(s[k])
    requires until == |s| || !IsJsSpace(s[until])
    ensures SpaceRun(s, from) == until
    decreases until - from
  {
    if from < until {
      SpaceRunEnds(s, from + 1, until);
    }
  }

  /** `parseInt` reads leading whitespace followed by digits as their value. */
  lemma ParseIntOfIndex(w1: string, digits: string)
    requires AllSpace(w1, IsJsSpace) && |digits| >= 1 && AllDigits(digits)
    ensures JsParseInt(w1 + digits) == Int(DigitsValue(digits))
  {
    DigitIsNoSpaceOrSign(digits[0]);
    TrimStartAfterSpace(w1, digits, IsJsSpace);
    ParseIntOfTrimmedDigits(w1 + digits, digits);
  }

  lemma ParseIntOfTrimmedDigits(s: string, digits: string)
    requires TrimStart(s, IsJsSpace) == digits && |digits| >= 1 && AllDigits(digits)
    ensures JsParseInt(s) == Int(DigitsValue(digits))
  {
    DigitIsNoSpaceOrSign(digits[0]);
    assert DigitRun(digits) == |digits|;
    assert digits[..|digits|] == digits;
  }

  lemma DigitIsNoSpaceOrSign(c: char)
    requires IsDigit(c)
    ensures !IsJsSpace(c) && c != '-' && c != '+'
  {
  }

  /** The trimmed form of an indexed line starts like `0: `. */
  lemma IndexedLineKept(w1: string, digits: string, ws: string, body: string, w2: string)
    requires AllSpace(w1, IsJsSpace) && AllSpace(ws, IsJsSpace) && AllSpace(w2, IsJsSpace)
    requires |digits| >= 1 && AllDigits(digits) && |ws| >= 1
    requires body != [] && !IsJsSpace(body[0]) && !IsJsSpace(body[|body| - 1])
    ensures IsResultLine(w1 + digits + ":" + ws + body + w2)
  {
    var x := digits + (":" + ws + body);
    var line := w1 + digits + ":" + ws + body + w2;
    assert line == w1 + (x + w2);
    assert x[0] == digits[0] && x[|x| - 1] == body[|body| - 1];
    TrimStartAfterSpace(w1, x + w2, IsJsSpace);
    TrimEndBeforeSpace(x, w2, IsJsSpace);
    assert JsTrim(line) == x;
    DigitRunOfDigitsThen(digits, ":" + ws + body);
    assert x[|digits|] == ':' && x[|digits| + 1] == ws[0];
  }

  /** The first separator of an indexed line is the one after its digits. */
  lemma IndexedLineSplit(pre: string, digits: string, ws: string, rest: string)
    requires AllSpace(pre, IsJsSpace) && AllDigits(digits) && AllSpace(ws, IsJsSpace) && |ws| >= 1
    requires rest != [] && !IsJsSpace(rest[0])
    ensures SplitSep2(pre + digits + ":" + ws + rest) == [pre + digits, BeforeSep(rest)]
  {
    var head := pre + digits + ":" + ws;
    IndexedLineFirstSep(pre, digits, ws, rest, head + rest);
    IndexedLineSpaceRun(pre, digits, ws, rest, head + rest);
    SplitSep2After(head, rest, |pre| + |digits|);
    assert (head + rest)[..|pre| + |digits|] == pre + digits;
  }

  /** With the first separator at `p` and its whitespace running to the end of
      `head`, the split gives the text before `p` and the text of `rest` up to
      a next separator. */
  lemma SplitSep2After(head: string, rest: string, p: nat)
    requires FindSep(head + rest, 0) == Some(p) && SpaceRun(head + rest, p + 1) == |head|
    ensures SplitSep2(head + rest) == [(head + rest)[..p], BeforeSep(rest)]
  {
    PartAfterHead(head, rest);
  }

  /** The part after `head` is the text of `rest` before its first separator. */
  lemma PartAfterHead(head: string, rest: string)
    ensures PartFrom(head + rest, |head|) == BeforeSep(rest)
  {
    var line := head + rest;
    FindSepShift(head, rest, 0);
    assert line[|head|..] == rest;
    match FindSep(rest, 0)
    case None =>
    case Some(q) =>
      assert line[|head|..|head| + q] == rest[..q];
  }

  lemma IndexedLineFirstSep(pre: string, digits: string, ws: string, rest: string, line: string)
    requires AllDigits(digits) && |ws| >= 1 && IsJsSpace(ws[0])
    requires line == pre + digits + ":" + ws + rest
    requires AllSpace(pre, IsJsSpace)
    ensures FindSep(line, 0) == Some(|pre| + |digits|)
  {
    var p := |pre| + |digits|;
    forall k | 0 <= k < p ensures !SepAt(line, k) {
      if k < |pre| { assert line[k] == pre[k]; } else { assert line[k] == digits[k - |pre|]; }
    }
    FindSepSkips(line, 0, p);
    assert line[p] == ':' && line[p + 1] == ws[0];
  }

  lemma IndexedLineSpaceRun(pre: string, digits: string, ws: string, rest: string, line: string)
    requires AllSpace(ws, IsJsSpace) && rest != [] && !IsJsSpace(rest[0])
    requires line == pre + digits + ":" + ws + rest
    ensures SpaceRun(line, |pre| + |digits| + 1) == |pre + digits + ":" + ws|
  {
    var p := |pre| + |digits|;
    var e := p + 1 + |ws|;
    forall k | p + 1 <= k < e ensures IsJsSpace(line[k]) {
      assert line[k] == ws[k - p - 1];
    }
    assert line[e] == rest[0];
    SpaceRunEnds(line, p + 1, e);
  }

  lemma ParseLineOfParts(line: string, index: string, title: string)
    requires SplitSep2(line) == [index, title]
    ensures ParseLine(line) == Paper(JsParseInt(index), JsTrim(title))
  {
  }

  /** A line made of optional leading whitespace, a digit run, a colon,
      whitespace, a title and optional trailing whitespace is kept; its id is
      the value of the digit run, and its title is the trimmed text before the
      next separator. */
  lemma ParseIndexedLine(line: string, w1: string, digits: string, ws: string, body: string, w2: string)
    requires line == w1 + digits + ":" + ws + body + w2
    requires AllSpace(w1, IsJsSpace) && AllSpace(ws, IsJsSpace) && AllSpace(w2, IsJsSpace)
    requires |digits| >= 1 && AllDigits(digits) && |ws| >= 1
    requires body != [] && !IsJsSpace(body[0]) && !IsJsSpace(body[|body| - 1])
    ensures IsResultLine(line)
    ensures ParseLine(line) == Paper(Int(DigitsValue(digits)), JsTrim(BeforeSep(body + w2)))
  {
    IndexedLineKept(w1, digits, ws, body, w2);
    ConcatAssoc(w1 + digits + ":" + ws, body, w2);
    IndexedLineSplit(w1, digits, ws, body + w2);
    ParseLineOfParts(line, w1 + digits, BeforeSep(body + w2));
    ParseIntOfIndex(w1, digits);
  }

  /** Without a second separator the title is the whole text after the first
      one, trimmed. */
  lemma TitleWithoutSecondSeparator(line: string, w1: string, digits: string, ws: string, body: string, w2: string)
    requires line == w1 + digits + ":" + ws + body + w2
    requires AllSpace(w1, IsJsSpace) && AllSpace(ws, IsJsSpace) && AllSpace(w2, IsJsSpace)
    requires |digits| >= 1 && AllDigits(digits) && |ws| >= 1
    requires body != [] && !IsJsSpace(body[0]) && !IsJsSpace(body[|body| - 1])
    requires FindSep(body + w2, 0).None?
    ensures ParseLine(line) == Paper(Int(DigitsValue(digits)), body)
  {
    ParseIndexedLine(line, w1, digits, ws, body, w2);
    TrimTrailing(body, w2, IsJsSpace);
  }

  lemma LineWithSecondSeparator(line: string, head: string, body: string, ws2: string, more: string)
    requires line == head + body + ":" + ws2 + more
    ensures line == head + (body + (":" + ws2 + more))
  {
    ConcatAssoc(head + body, ":" + ws2, more);
    ConcatAssoc(head + body, ":", ws2);
    ConcatAssoc(head, body, ":" + ws2 + more);
  }

  /** A separator right after a title without one ends it. */
  lemma BeforeSecondSeparator(body: string, ws2: string, more: string)
    requires body != [] && FindSep(body, 0).None?
    requires |ws2| >= 1 && IsJsSpace(ws2[0])
    ensures BeforeSep(body + (":" + ws2 + more)) == body
  {
    var rest := body + (":" + ws2 + more);
    forall k | 0 <= k < |body| ensures !SepAt(rest, k) {
      if k + 1 < |body| {
        assert rest[k] == body[k] && rest[k + 1] == body[k + 1];
        assert !SepAt(body, k);
      } else {
        assert rest[k] == body[k];
      }
    }
    assert rest[|body|] == ':' && rest[|body| + 1] == ws2[0];
    FindSepSkips(rest, 0, |body|);
    assert FindSep(rest, 0) == Some(|body|);
    assert rest[..|body|] == body;
  }

  /** Text after a second separator is dropped: the title is what comes
      between the two. */
  lemma TitleBeforeSecondSeparator(line: string, w1: string, digits: string, ws: string, body: string, ws2: string, more: string)
    requires line == w1 + digits + ":" + ws + body + ":" + ws2 + more
    requires AllSpace(w1, IsJsSpace) && AllSpace(ws, IsJsSpace) && AllSpace(ws2, IsJsSpace)
    requires |digits| >= 1 && AllDigits(digits) && |ws| >= 1 && |ws2| >= 1
    requires body != [] && !IsJsSpace(body[0]) && !IsJsSpace(body[|body| - 1])
    requires FindSep(body, 0).None?
    ensures ParseLine(line) == Paper(Int(DigitsValue(digits)), body)
  {
    var rest := body + (":" + ws2 + more);
    LineWithSecondSeparator(line, w1 + digits + ":" + ws, body, ws2, more);
    IndexedLineSplit(w1, digits, ws, rest);
    ParseLineOfParts(line, w1 + digits, BeforeSep(rest));
    ParseIntOfIndex(w1, digits);
    BeforeSecondSeparator(body, ws2, more);
    TrimOfTrimmed(body, IsJsSpace);
  }

  lemma SpaceRunSlice(t: string, from: nat)
    requires from <= |t|
    ensures AllSpace(t[from..SpaceRun(t, from)], IsJsSpace)
  {
    var ws := t[from..SpaceRun(t, from)];
    forall k | 0 <= k < |ws| ensures IsJsSpace(ws[k]) { assert ws[k] == t[from + k]; }
  }

  lemma CutThree(t: string, n: nat, e: nat)
    requires n < e <= |t| && t[n] == ':'
    ensures t == t[..n] + ":" + t[n + 1..e] + t[e..]
  {
    assert t == t[..n] + [t[n]] + t[n + 1..e] + t[e..];
  }

  /** A trimmed text starting like `0: ` is digits, a colon, whitespace and a
      non-empty rest that starts and ends with a non-space character. */
  lemma IndexShape(t: string) returns (digits: string, ws: string, body: string)
    requires StartsWithIndex(t) && IsTrimmed(t, IsJsSpace)
    ensures t == digits + ":" + ws + body
    ensures |digits| >= 1 && AllDigits(digits) && digits == t[..DigitRun(t)]
    ensures |ws| >= 1 && AllSpace(ws, IsJsSpace)
    ensures body != [] && !IsJsSpace(body[0]) && !IsJsSpace(body[|body| - 1])
  {
    var n := DigitRun(t);
    var e := SpaceRun(t, n + 1);
    assert e < |t|;
    digits := t[..n];
    ws := t[n + 1..e];
    body := t[e..];
    SpaceRunSlice(t, n + 1);
    CutThree(t, n, e);
  }

  lemma Regroup(w1: string, digits: string, ws: string, body: string, w2: string)
    ensures w1 + (digits + ":" + ws + body) + w2 == w1 + digits + ":" + ws + body + w2
  {
  }

  /** Every kept line has the shape `ParseIndexedLine` describes. */
  lemma KeptLineShape(line: string) returns (w1: string, digits: string, ws: string, body: string, w2: string)
    requires IsResultLine(line)
    ensures line == w1 + digits + ":" + ws + body + w2
    ensures AllSpace(w1, IsJsSpace) && AllSpace(ws, IsJsSpace) && AllSpace(w2, IsJsSpace)
    ensures |digits| >= 1 && AllDigits(digits) && |ws| >= 1
    ensures body != [] && !IsJsSpace(body[0]) && !IsJsSpace(body[|body| - 1])
    ensures digits == JsTrim(line)[..DigitRun(JsTrim(line))]
  {
    w1, w2 := TrimDecompose(line, IsJsSpace);
    digits, ws, body := IndexShape(JsTrim(line));
    Regroup(w1, digits, ws, body, w2);
  }

  /** The id of any kept line is the value of the digit run its trimmed form
      starts with. */
  lemma KeptLineId(line: string)
    requires IsResultLine(line)
    ensures ParseLine(line).id == Int(DigitsValue(JsTrim(line)[..DigitRun(JsTrim(line))]))
  {
    var w1, digits, ws, body, w2 := KeptLineShape(line);
    ParseIndexedLine(line, w1, digits, ws, body, w2);
  }

  /** One result written as `handleResults` expects it. */
  datatype Entry = Entry(id: nat, title: string)

  function Render(entry: Entry): string {
    NatToString(entry.id) + ": " + entry.title
  }

  /** A title that can be written on a result line: non-empty, trimmed and on
      one line. */
  predicate OneLineTitle(title: string) {
    title != [] && IsTrimmed(title, IsJsSpace) && '\n' !in title
  }

  /** A title that survives the parser as written: in addition, without a colon
      followed by whitespace. */
  predicate GoodTitle(title: string) {
    OneLineTitle(title) && FindSep(title, 0).None?
  }

  lemma RenderShape(digits: string, title: string)
    ensures digits + ": " + title == [] + digits + ":" + " " + title + []
    ensures title + [] == title
  {
    assert ": " == ":" + " ";
  }

  lemma RenderOneLine(digits: string, title: string)
    requires AllDigits(digits) && '\n' !in title
    ensures '\n' !in digits + ": " + title
  {
    var s := digits + ": " + title;
    forall i | 0 <= i < |s| ensures s[i] != '\n' {
      if i < |digits| { assert s[i] == digits[i]; }
      else if i >= |digits| + 2 { assert s[i] == title[i - |digits| - 2]; }
    }
  }

  lemma RenderedLineKept(entry: Entry)
    requires OneLineTitle(entry.title)
    ensures IsResultLine(Render(entry)) && '\n' !in Render(entry)
  {
    var digits := NatToString(entry.id);
    RenderShape(digits, entry.title);
    IndexedLineKept([], digits, " ", entry.title, []);
    RenderOneLine(digits, entry.title);
  }

  lemma RenderedLineParses(entry: Entry)
    requires GoodTitle(entry.title)
    ensures ParseLine(Render(entry)) == Paper(Int(entry.id), entry.title)
  {
    var digits := NatToString(entry.id);
    RenderShape(digits, entry.title);
    ParseIndexedLine(Render(entry), [], digits, " ", entry.title, []);
    TrimTrailing(entry.title, [], IsJsSpace);
    DigitsValueOfNatToString(entry.id);
  }

  lemma RenderedLineParsesIntended(entry: Entry)
    requires OneLineTitle(entry.title)
    ensures ParseLineIntended(Render(entry)) == Paper(Int(entry.id), entry.title)
  {
    var digits := NatToString(entry.id);
    RenderShape(digits, entry.title);
    IntendedTitle(Render(entry), [], digits, " ", entry.title, []);
    DigitsValueOfNatToString(entry.id);
  }

  /** Lines that all pass the filter, joined, are each parsed, in order. */
  lemma HandleKeptLines(parse: string -> Paper, lines: seq<string>)
    requires |lines| >= 1
    requires forall i :: 0 <= i < |lines| ==> IsResultLine(lines[i]) && '\n' !in lines[i]
    ensures HandleWith(parse, Str(Join(lines, '\n'))) == ParseAll(parse, lines)
  {
    SplitJoin(lines, '\n');
    FilterAll(IsResultLine, lines);
  }

  /** Response text of several lines gives one result per kept line, in the
      order of the lines. */
  lemma HandleLines(parse: string -> Paper, lines: seq<string>)
    requires |lines| >= 1
    requires forall i :: 0 <= i < |lines| ==> '\n' !in lines[i]
    ensures HandleWith(parse, Str(Join(lines, '\n'))) == ParseAll(parse, Filter(IsResultLine, lines))
  {
    SplitJoin(lines, '\n');
  }

  /** A line among others: kept, it gives its result between those of the
      lines before and after it; dropped, it leaves no trace. */
  lemma HandleMixedLines(parse: string -> Paper, before: seq<string>, line: string, after: seq<string>)
    requires forall i :: 0 <= i < |before| ==> '\n' !in before[i]
    requires '\n' !in line
    requires forall i :: 0 <= i < |after| ==> '\n' !in after[i]
    ensures HandleWith(parse, Str(Join(before + [line] + after, '\n')))
      == ParseAll(parse, Filter(IsResultLine, before))
         + (if IsResultLine(line) then [parse(line)] else [])
         + ParseAll(parse, Filter(IsResultLine, after))
  {
    var lines := before + [line] + after;
    NoBreakAround(before, line, after);
    HandleLines(parse, lines);
    var kept := Filter(IsResultLine, lines);
    assert HandleWith(parse, Str(Join(lines, '\n'))) == ParseAll(parse, kept);
    FilterAround(IsResultLine, before, line, after);
    var fb, fa := Filter(IsResultLine, before), Filter(IsResultLine, after);
    var mid: seq<string> := if IsResultLine(line) then [line] else [];
    assert kept == fb + mid + fa;
    ParseAllAppend(parse, fb + mid, fa);
    ParseAllAppend(parse, fb, mid);
    assert ParseAll(parse, mid) == if IsResultLine(line) then [parse(line)] else [];
  }

  /** The filter of a list with one element picked out. */
  lemma FilterAround<T>(p: T -> bool, a: seq<T>, x: T, b: seq<T>)
    ensures Filter(p, a + [x] + b) == Filter(p, a) + (if p(x) then [x] else []) + Filter(p, b)
  {
    FilterAppend(p, a + [x], b);
    FilterAppend(p, a, [x]);
    assert Filter(p, [x]) == (if p(x) then [x] else []) + Filter(p, []);
  }

  /** Lines without a line break, put together, still have none. */
  lemma NoBreakAround(before: seq<string>, line: string, after: seq<string>)
    requires forall i :: 0 <= i < |before| ==> '\n' !in before[i]
    requires '\n' !in line
    requires forall i :: 0 <= i < |after| ==> '\n' !in after[i]
    ensures forall i :: 0 <= i < |before + [line] + after| ==> '\n' !in (before + [line] + after)[i]
  {
    var lines := before + [line] + after;
    forall i | 0 <= i < |lines| ensures '\n' !in lines[i] {
      if i < |before| { assert lines[i] == before[i]; }
      else if i > |before| { assert lines[i] == after[i - |before| - 1]; }
    }
  }

  /** Parsing a concatenation of lines parses each part. */
  lemma ParseAllAppend(parse: string -> Paper, a: seq<string>, b: seq<string>)
    ensures ParseAll(parse, a + b) == ParseAll(parse, a) + ParseAll(parse, b)
  {
    var ab := a + b;
    assert forall i :: 0 <= i < |ab| ==> ab[i] == if i < |a| then a[i] else b[i - |a|];
  }

  /** The empty response text holds no results. */
  lemma HandleEmptyText(parse: string -> Paper)
    ensures HandleWith(parse, Str([])) == []
  {
    assert Split([], '\n') == [[]];
    assert !IsResultLine([]);
  }

  /** Results written one per line as `id: title`. */
  function RenderAll(entries: seq<Entry>): string {
    Join(RenderLines(entries), '\n')
  }

  function RenderLines(entries: seq<Entry>): seq<string> {
    seq(|entries|, i requires 0 <= i < |entries| => Render(entries[i]))
  }

  /** The papers the entries stand for. */
  function Papers(entries: seq<Entry>): seq<Paper> {
    seq(|entries|, i requires 0 <= i < |entries| => Paper(Int(entries[i].id), entries[i].title))
  }

  /** Results written one per line as `id: title` are read back exactly, in
      order, by `handleResults` when no title holds a separator. */
  lemma ResultsRoundTrip(entries: seq<Entry>)
    requires forall i :: 0 <= i < |entries| ==> GoodTitle(entries[i].title)
    ensures HandleResults(Str(RenderAll(entries))) == Papers(entries)
  {
    if entries == [] {
      assert RenderLines(entries) == [];
      HandleEmptyText(ParseLine);
    } else {
      RenderedLinesKept(entries);
      HandleKeptLines(ParseLine, RenderLines(entries));
      RenderedLinesParsed(entries);
    }
  }

  /** With the corrected map step every one-line title is read back exactly,
      separators included. */
  lemma IntendedResultsRoundTrip(entries: seq<Entry>)
    requires forall i :: 0 <= i < |entries| ==> OneLineTitle(entries[i].title)
    ensures HandleResultsIntended(Str(RenderAll(entries))) == Papers(entries)
  {
    if entries == [] {
      assert RenderLines(entries) == [];
      HandleEmptyText(ParseLineIntended);
    } else {
      RenderedLinesKept(entries);
      HandleKeptLines(ParseLineIntended, RenderLines(entries));
      RenderedLinesParsedIntended(entries);
    }
  }

  lemma RenderedLinesKept(entries: seq<Entry>)
    requires forall i :: 0 <= i < |entries| ==> OneLineTitle(entries[i].title)
    ensures forall i :: 0 <= i < |RenderLines(entries)| ==>
              IsResultLine(RenderLines(entries)[i]) && '\n' !in RenderLines(entries)[i]
  {
    forall i | 0 <= i < |entries|
      ensures IsResultLine(RenderLines(entries)[i]) && '\n' !in RenderLines(entries)[i]
    {
      RenderedLineKept(entries[i]);
    }
  }

  lemma RenderedLinesParsed(entries: seq<Entry>)
    requires forall i :: 0 <= i < |entries| ==> GoodTitle(entries[i].title)
    ensures ParseAll(ParseLine, RenderLines(entries)) == Papers(entries)
  {
    var parsed := ParseAll(ParseLine, RenderLines(entries));
    forall i | 0 <= i < |entries| ensures parsed[i] == Papers(entries)[i] {
      RenderedLineParses(entries[i]);
    }
  }

  lemma RenderedLinesParsedIntended(entries: seq<Entry>)
    requires forall i :: 0 <= i < |entries| ==> OneLineTitle(entries[i].title)
    ensures ParseAll(ParseLineIntended, RenderLines(entries)) == Papers(entries)
  {
    var parsed := ParseAll(ParseLineIntended, RenderLines(entries));
    forall i | 0 <= i < |entries| ensures parsed[i] == Papers(entries)[i] {
      RenderedLineParsesIntended(entries[i]);
    }
  }

  /** The corrected map step on any kept line shape: the id is the digit run's
      value and the title is everything after the first separator, trimmed,
      whatever separators it holds. */
  lemma IntendedTitle(line: string, w1: string, digits: string, ws: string, title: string, w2: string)
    requires line == w1 + digits + ":" + ws + title + w2
    requires AllSpace(w1, IsJsSpace) && AllSpace(ws, IsJsSpace) && AllSpace(w2, IsJsSpace)
    requires |digits| >= 1 && AllDigits(digits) && |ws| >= 1
    requires title != [] && IsTrimmed(title, IsJsSpace)
    ensures IsResultLine(line)
    ensures ParseLineIntended(line) == Paper(Int(DigitsValue(digits)), title)
  {
    IndexedLineKept(w1, digits, ws, title, w2);
    ConcatAssoc(w1 + digits + ":" + ws, title, w2);
    IntendedSplit(w1, digits, ws, title + w2);
    TrimTrailing(title, w2, IsJsSpace);
    ParseIntOfIndex(w1, digits);
  }

  /** The corrected step cuts an indexed line after the whitespace following
      its digits. */
  lemma IntendedSplit(pre: string, digits: string, ws: string, rest: string)
    requires AllSpace(pre, IsJsSpace) && AllDigits(digits) && AllSpace(ws, IsJsSpace) && |ws| >= 1
    requires rest != [] && !IsJsSpace(rest[0])
    ensures ParseLineIntended(pre + digits + ":" + ws + rest) == Paper(JsParseInt(pre + digits), JsTrim(rest))
  {
    var head := pre + digits + ":" + ws;
    IndexedLineFirstSep(pre, digits, ws, rest, head + rest);
    IndexedLineSpaceRun(pre, digits, ws, rest, head + rest);
    IntendedAfter(head, rest, |pre| + |digits|);
    assert (head + rest)[..|pre| + |digits|] == pre + digits;
    ParseLineIntendedOfParts(head + rest, pre + digits, rest);
  }

  lemma ParseLineIntendedOfParts(line: string, index: string, title: string)
    requires SplitOnce(line) == [index, title]
    ensures ParseLineIntended(line) == Paper(JsParseInt(index), JsTrim(title))
  {
  }

  lemma IntendedAfter(head: string, rest: string, p: nat)
    requires FindSep(head + rest, 0) == Some(p) && SpaceRun(head + rest, p + 1) == |head|
    ensures SplitOnce(head + rest) == [(head + rest)[..p], rest]
  {
    assert (head + rest)[|head|..] == rest;
  }

  /** The map step as written drops what follows a second separator: the line
      `0: BERT: Pre-training` gives the title `BERT`, where the corrected step
      gives `BERT: Pre-training`. */
  lemma SecondSeparatorTruncates(digits: string, body: string, more: string)
    requires |digits| >= 1 && AllDigits(digits)
    requires body != [] && !IsJsSpace(body[0]) && !IsJsSpace(body[|body| - 1])
    requires FindSep(body, 0).None?
    requires more != [] && IsTrimmed(more, IsJsSpace)
    ensures var line := digits + ": " + body + ": " + more;
            && IsResultLine(line)
            && ParseLine(line).title == body
            && ParseLineIntended(line).title == body + ": " + more
            && ParseLine(line).title != ParseLineIntended(line).title
  {
    var line := digits + ": " + body + ": " + more;
    SeparatorLineShape(digits, body, more);
    TitleBeforeSecondSeparator(line, [], digits, " ", body, " ", more);
    var title := body + ": " + more;
    assert title[0] == body[0] && title[|title| - 1] == more[|more| - 1];
    IntendedTitle(line, [], digits, " ", title, []);
  }

  lemma SeparatorLineShape(digits: string, body: string, more: string)
    ensures digits + ": " + body + ": " + more == [] + digits + ":" + " " + body + ":" + " " + more
    ensures digits + ": " + body + ": " + more == [] + digits + ":" + " " + (body + ": " + more) + []
  {
    assert ": " == ":" + " ";
  }

  // ---------------------------------------------------------------------
  // The summary: the cleanup in handleSummarize
  // ---------------------------------------------------------------------

  const Marker: string := "[SUMMARY]"

  /** The filter of the cleanup: the trimmed line starts with the marker, or is
      not empty. */
  predicate KeepSummaryLine(line: string) {
    Marker <= JsTrim(line) || JsTrim(line) != []
  }

  /** The map step: the first marker is removed, then the line is trimmed. */
  function CleanLine(line: string): string {
    JsTrim(ReplaceFirst(line, Marker, []))
  }

  /** The cleanup: split into lines, filter, clean each, join with line breaks. */
  function CleanSummary(text: string): string {
    var kept := Filter(KeepSummaryLine, Split(text, '\n'));
    Join(CleanAll(kept), '\n')
  }

  /** The map step applied to each kept line, in order. */
  function CleanAll(lines: seq<string>): seq<string> {
    seq(|lines|, i requires 0 <= i < |lines| => CleanLine(lines[i]))
  }

  /** The filter keeps exactly the lines that are not blank: a line starting
      with the marker is never blank anyway. */
  lemma SummaryFilterKeepsNonBlank(line: string)
    ensures KeepSummaryLine(line) <==> !AllSpace(line, IsJsSpace)
  {
    TrimEmptyIff(line, IsJsSpace);
  }

  /** Only whitespace in front of the marker: its first occurrence is the one
      after the whitespace, and removing it leaves the whitespace around it. */
  lemma RemoveMarkerAfterSpace(w1: string, w2: string)
    requires AllSpace(w1, IsJsSpace)
    ensures ReplaceFirst(w1 + Marker + w2, Marker, []) == w1 + w2
  {
    var line := w1 + Marker + w2;
    assert OccursAt(line, Marker, |w1|) by {
      assert line[|w1|..|w1| + |Marker|] == Marker;
    }
    forall k | 0 <= k < |w1| ensures !OccursAt(line, Marker, k) {
      assert line[k] == w1[k];
    }
    assert FindFrom(line, Marker, 0) == Some(|w1|);
    assert line[..|w1|] == w1;
    assert line[|w1| + |Marker|..] == w2;
  }

  /** A line holding only the marker is kept, and cleaned to an empty line. */
  lemma MarkerOnlyLineBecomesEmpty(w1: string, w2: string)
    requires AllSpace(w1, IsJsSpace) && AllSpace(w2, IsJsSpace)
    ensures KeepSummaryLine(w1 + Marker + w2)
    ensures CleanLine(w1 + Marker + w2) == []
  {
    var line := w1 + Marker + w2;
    assert !AllSpace(line, IsJsSpace) by {
      assert line[|w1|] == '[';
    }
    SummaryFilterKeepsNonBlank(line);
    RemoveMarkerAfterSpace(w1, w2);
    AllSpaceConcat(w1, w2, IsJsSpace);
    TrimEmptyIff(w1 + w2, IsJsSpace);
  }

  /** Removing the first marker puts no line break into a line. */
  lemma ReplaceFirstKeepsLine(line: string)
    requires '\n' !in line
    ensures '\n' !in ReplaceFirst(line, Marker, [])
  {
    match FindFrom(line, Marker, 0)
    case None =>
    case Some(i) =>
      var r := line[..i] + line[i + |Marker|..];
      forall j | 0 <= j < |r| ensures r[j] != '\n' {
        if j < i { assert r[j] == line[j]; } else { assert r[j] == line[j + |Marker|]; }
      }
      assert ReplaceFirst(line, Marker, []) == r;
  }

  /** The lines of the cleaned summary are the cleaned non-blank lines of the
      text, in order, each trimmed; with no such line the summary is empty. */
  lemma CleanSummaryLines(text: string)
    ensures var kept := Filter(KeepSummaryLine, Split(text, '\n'));
            && (kept == [] ==> CleanSummary(text) == [])
            && (kept != [] ==> Split(CleanSummary(text), '\n')
                                == CleanAll(kept))
    ensures forall i :: 0 <= i < |Split(CleanSummary(text), '\n')| ==>
              IsTrimmed(Split(CleanSummary(text), '\n')[i], IsJsSpace)
  {
    var kept := Filter(KeepSummaryLine, Split(text, '\n'));
    if kept == [] {
      assert Split([], '\n') == [[]];
    } else {
      CleanedLinesOneLine(text, kept);
      SplitJoin(CleanAll(kept), '\n');
    }
  }

  /** Each kept line, cleaned, is still on one line. */
  lemma CleanedLinesOneLine(text: string, kept: seq<string>)
    requires kept == Filter(KeepSummaryLine, Split(text, '\n'))
    ensures forall i :: 0 <= i < |CleanAll(kept)| ==> '\n' !in CleanAll(kept)[i]
  {
    var lines := Split(text, '\n');
    forall i | 0 <= i < |kept| ensures '\n' !in CleanAll(kept)[i] {
      assert kept[i] in lines;
      var j :| 0 <= j < |lines| && lines[j] == kept[i];
      ReplaceFirstKeepsLine(kept[i]);
      TrimOneLine(ReplaceFirst(kept[i], Marker, []), IsJsSpace);
    }
  }

  lemma CleanSummaryOfKept(text: string, kept: seq<string>)
    requires Filter(KeepSummaryLine, Split(text, '\n')) == kept
    ensures CleanSummary(text) == Join(CleanAll(kept), '\n')
  {
  }

  /** A line the cleanup has nothing to do to: non-empty, trimmed, on one line
      and without the marker. */
  predicate IsCleanLine(line: string) {
    line != [] && IsTrimmed(line, IsJsSpace) && '\n' !in line && FindFrom(line, Marker, 0).None?
  }

  /** A clean line passes the filter and comes out of the map unchanged. */
  lemma CleanLineOfCleanLine(line: string)
    requires IsCleanLine(line)
    ensures KeepSummaryLine(line) && CleanLine(line) == line
  {
    TrimOfTrimmed(line, IsJsSpace);
  }

  lemma CleanLinesKept(lines: seq<string>)
    requires |lines| >= 1
    requires forall i :: 0 <= i < |lines| ==> IsCleanLine(lines[i])
    ensures Filter(KeepSummaryLine, Split(Join(lines, '\n'), '\n')) == lines
  {
    SplitJoin(lines, '\n');
    forall i | 0 <= i < |lines| ensures KeepSummaryLine(lines[i]) {
      CleanLineOfCleanLine(lines[i]);
    }
    FilterAll(KeepSummaryLine, lines);
  }

  lemma CleanLinesUnchanged(lines: seq<string>)
    requires forall i :: 0 <= i < |lines| ==> IsCleanLine(lines[i])
    ensures CleanAll(lines) == lines
  {
    forall i | 0 <= i < |lines| ensures CleanLine(lines[i]) == lines[i] {
      CleanLineOfCleanLine(lines[i]);
    }
  }

  /** A text whose lines are all clean comes back unchanged. */
  lemma CleanTextUnchanged(lines: seq<string>)
    requires |lines| >= 1
    requires forall i :: 0 <= i < |lines| ==> IsCleanLine(lines[i])
    ensures CleanSummary(Join(lines, '\n')) == Join(lines, '\n')
  {
    CleanLinesKept(lines);
    CleanSummaryOfKept(Join(lines, '\n'), lines);
    CleanLinesUnchanged(lines);
  }
}
