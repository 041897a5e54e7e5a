/** `create_issue_content`, the Markdown document an entry is stored as, and the
    search branch's extraction of its "原话" (raw thoughts) section. */
module Entry {
  import opened Text

  /** One trading-lesson entry: the arguments of `create_issue_content`. */
  datatype Entry = Entry(
    rawThoughts: string,
    background: string,
    good: string,
    bad: string,
    lessons: string,
    price: string,
    trend: string)

  const RawTitle := "原话"
  const ContextTitle := "市场背景"
  const GoodTitle := "做得好的地方"
  const BadTitle := "做得不好的地方"
  const LessonsTitle := "核心教训"

  /** The five headings, in document order. */
  const Titles := [RawTitle, ContextTitle, GoodTitle, BadTitle, LessonsTitle]

  const PriceMarker := "- **价格**："
  const TrendMarker := "- **趋势**："
  const FooterStart := "---\n\n📅 记录时间："
  const Signature := "🤖 由 Discord Bot 自动创建\n"

  function Heading(title: string): string {
    "## " + title + "\n"
  }

  /** A heading, a blank line, the body and a blank line. */
  function Section(title: string, body: string): string {
    Heading(title) + "\n" + body + "\n\n"
  }

  function PriceLine(price: string): string {
    if price == [] then [] else PriceMarker + price + "\n"
  }

  function TrendLine(trend: string): string {
    if trend == [] then [] else TrendMarker + trend + "\n"
  }

  /** The body of the market-context section: the optional bullets, then the text. */
  function MarketContext(e: Entry): string {
    PriceLine(e.price) + TrendLine(e.trend) + e.background
  }

  /** The bodies of the five sections, in the order of `Titles`. */
  function Bodies(e: Entry): seq<string> {
    [e.rawThoughts, MarketContext(e), e.good, e.bad, e.lessons]
  }

  /** The separator and the footer stamped with the (already formatted) time. */
  function Footer(stamp: string): string {
    FooterStart + stamp + "\n" + Signature
  }

  /** The whole document: the five sections in the order of `Titles`, then the footer. */
  function Document(e: Entry, stamp: string): string {
    Section(RawTitle, e.rawThoughts) + Section(ContextTitle, MarketContext(e))
    + Section(GoodTitle, e.good) + Section(BadTitle, e.bad) + Section(LessonsTitle, e.lessons)
    + Footer(stamp)
  }

  /** `create_issue_content(...)`, with the clock reading passed in as `stamp`
      (the `%Y-%m-%d %H:%M` text). It builds the text piece by piece as the
      source does, one `+=` per template piece; the result is the section
      document, so equal inputs and an equal stamp give equal text. */
  method CreateIssueContent(e: Entry, stamp: string) returns (content: string)
    ensures content == Document(e, stamp)
  {
    content := "## 原话\n\n" + e.rawThoughts + "\n\n## 市场背景\n\n";
    ghost var opening := content;
    if e.price != [] {
      content := content + ("- **价格**：" + e.price + "\n");
    }
    assert content == opening + PriceLine(e.price);
    if e.trend != [] {
      content := content + ("- **趋势**：" + e.trend + "\n");
    }
    assert content == opening + PriceLine(e.price) + TrendLine(e.trend);
    content := content + (e.background + "\n");
    content := content + ("\n## 做得好的地方\n\n" + e.good + "\n\n## 做得不好的地方\n\n" + e.bad
      + "\n\n## 核心教训\n\n" + e.lessons + "\n\n---\n\n📅 记录时间：" + stamp
      + "\n🤖 由 Discord Bot 自动创建\n");
    FrontText(e.rawThoughts);
    BackText(e, stamp);
    DocumentSplit(e, stamp);
    JoinPieces(opening, PriceLine(e.price), TrendLine(e.trend), e.background, AfterContext(e, stamp));
  }

  /** The template up to the market-context body, cut at the section boundary. */
  lemma FrontText(raw: string)
    ensures "## 原话\n\n" + raw + "\n\n## 市场背景\n\n" == Section(RawTitle, raw) + Heading(ContextTitle) + "\n"
  {
    assert "## 原话\n\n" == Heading(RawTitle) + "\n";
    assert "\n\n## 市场背景\n\n" == "\n\n" + Heading(ContextTitle) + "\n";
  }

  /** The template after the market-context body. */
  lemma BackText(e: Entry, stamp: string)
    ensures "\n## 做得好的地方\n\n" + e.good + "\n\n## 做得不好的地方\n\n" + e.bad
      + "\n\n## 核心教训\n\n" + e.lessons + "\n\n---\n\n📅 记录时间：" + stamp
      + "\n🤖 由 Discord Bot 自动创建\n" == AfterContext(e, stamp)
  {
    BackLiterals();
    BackRegroup(Heading(GoodTitle), e.good, Heading(BadTitle), e.bad, Heading(LessonsTitle), e.lessons, stamp);
  }

  lemma BackLiterals()
    ensures "\n## 做得好的地方\n\n" == "\n" + Heading(GoodTitle) + "\n"
    ensures "\n\n## 做得不好的地方\n\n" == "\n\n" + Heading(BadTitle) + "\n"
    ensures "\n\n## 核心教训\n\n" == "\n\n" + Heading(LessonsTitle) + "\n"
    ensures "\n\n---\n\n📅 记录时间：" == "\n\n" + FooterStart
    ensures "\n🤖 由 Discord Bot 自动创建\n" == "\n" + Signature
  {
  }

  lemma BackRegroup(h2: string, good: string, h3: string, bad: string, h4: string, lessons: string, stamp: string)
    ensures ("\n" + h2 + "\n") + good + ("\n\n" + h3 + "\n") + bad + ("\n\n" + h4 + "\n") + lessons
            + ("\n\n" + FooterStart) + stamp + ("\n" + Signature)
         == "\n" + h2 + ("\n" + good + "\n\n" + (h3 + "\n" + bad + "\n\n") + (h4 + "\n" + lessons + "\n\n")
            + (FooterStart + stamp + "\n" + Signature))
  {
  }

  lemma JoinPieces(head: string, pl: string, tl: string, bg: string, after: string)
    ensures head + pl + tl + (bg + "\n") + after == head + (pl + tl + bg + "\n" + after)
  {
  }

  /** `(a + b + c)[|a|..]` begins with `b`. */
  lemma PieceAt(a: string, b: string, c: string)
    ensures |a| + |b| <= |a + b + c|
    ensures StartsWith((a + b + c)[|a|..], b)
  {
    assert (a + b + c)[|a|..][..|b|] == b;
  }

  /** The layout: the five sections start at increasing offsets, each with its
      heading, a blank line, its field (present even when the field is empty)
      and a blank line, and the `---` footer takes the rest. */
  lemma DocumentLayout(e: Entry, stamp: string) returns (at: seq<nat>)
    ensures |at| == 6 && at[0] == 0
    ensures forall k :: 0 <= k < 5 ==> at[k] < at[k + 1]
    ensures forall k :: 0 <= k < 6 ==> at[k] <= |Document(e, stamp)|
    ensures forall k :: 0 <= k < 5 ==>
      StartsWith(Document(e, stamp)[at[k]..], Heading(Titles[k]) + "\n" + Bodies(e)[k] + "\n\n")
    ensures Document(e, stamp)[at[5]..] == Footer(stamp)
    ensures StartsWith(Footer(stamp), "---\n")
  {
    var s0, s1, s2 := Section(RawTitle, e.rawThoughts), Section(ContextTitle, MarketContext(e)), Section(GoodTitle, e.good);
    var s3, s4, f := Section(BadTitle, e.bad), Section(LessonsTitle, e.lessons), Footer(stamp);
    var ss := [s0, s1, s2, s3, s4];
    assert forall k :: 0 <= k < 5 ==> ss[k] == Heading(Titles[k]) + "\n" + Bodies(e)[k] + "\n\n";
    var doc := Document(e, stamp);
    at := [0, |s0|, |s0 + s1|, |s0 + s1 + s2|, |s0 + s1 + s2 + s3|, |s0 + s1 + s2 + s3 + s4|];
    LayoutPieces(s0, s1, s2, s3, s4, f);
    assert doc == s0 + s1 + s2 + s3 + s4 + f;
  }

  lemma LayoutPieces(s0: string, s1: string, s2: string, s3: string, s4: string, f: string)
    ensures var doc := s0 + s1 + s2 + s3 + s4 + f;
      && StartsWith(doc, s0)
      && StartsWith(doc[|s0|..], s1)
      && StartsWith(doc[|s0 + s1|..], s2)
      && StartsWith(doc[|s0 + s1 + s2|..], s3)
      && StartsWith(doc[|s0 + s1 + s2 + s3|..], s4)
      && doc[|s0 + s1 + s2 + s3 + s4|..] == f
  {
    Regroup6(s0, s1, s2, s3, s4, f);
    PieceAt([], s0, s1 + s2 + s3 + s4 + f);
    PieceAt(s0, s1, s2 + s3 + s4 + f);
    PieceAt(s0 + s1, s2, s3 + s4 + f);
    PieceAt(s0 + s1 + s2, s3, s4 + f);
    PieceAt(s0 + s1 + s2 + s3, s4, f);
  }

  lemma Regroup6(s0: string, s1: string, s2: string, s3: string, s4: string, f: string)
    ensures s0 + s1 + s2 + s3 + s4 + f == [] + s0 + (s1 + s2 + s3 + s4 + f)
    ensures s0 + s1 + s2 + s3 + s4 + f == s0 + s1 + (s2 + s3 + s4 + f)
    ensures s0 + s1 + s2 + s3 + s4 + f == (s0 + s1) + s2 + (s3 + s4 + f)
    ensures s0 + s1 + s2 + s3 + s4 + f == (s0 + s1 + s2) + s3 + (s4 + f)
  {
  }

  /** Where the market-context section's body begins. */
  function ContextStart(e: Entry): nat {
    |Section(RawTitle, e.rawThoughts)| + |Heading(ContextTitle)| + 1
  }

  /** A marker without newlines that `b` does not begin with cannot be found at
      the head of `b` followed by a newline. */
  lemma NotMarkerAcrossNewline(m: string, b: string, rest: string)
    requires forall i :: 0 <= i < |m| ==> m[i] != '\n'
    requires !StartsWith(b, m)
    ensures !StartsWith(b + "\n" + rest, m)
  {
    if |b| < |m| {
      assert (b + "\n" + rest)[|b|] == '\n';
    }
  }

  /** What follows the market-context body: its closing newline aside, a blank
      line and the remaining sections and the footer. */
  function AfterContext(e: Entry, stamp: string): string {
    "\n" + Heading(GoodTitle) + ("\n" + e.good + "\n\n" + Section(BadTitle, e.bad)
      + Section(LessonsTitle, e.lessons) + Footer(stamp))
  }

  /** The document cut where the market-context body begins. */
  lemma DocumentSplit(e: Entry, stamp: string)
    ensures Document(e, stamp)
      == (Section(RawTitle, e.rawThoughts) + Heading(ContextTitle) + "\n")
         + (MarketContext(e) + "\n" + AfterContext(e, stamp))
  {
    RegroupContext(Section(RawTitle, e.rawThoughts), Heading(ContextTitle), MarketContext(e), Heading(GoodTitle),
                   e.good, Section(BadTitle, e.bad), Section(LessonsTitle, e.lessons), Footer(stamp));
  }

  /** The document from the start of the market-context body on. */
  lemma ContextTail(e: Entry, stamp: string)
    ensures ContextStart(e) <= |Document(e, stamp)|
    ensures Document(e, stamp)[ContextStart(e)..]
      == PriceLine(e.price) + TrendLine(e.trend) + e.background + "\n" + AfterContext(e, stamp)
  {
    var head := Section(RawTitle, e.rawThoughts) + Heading(ContextTitle) + "\n";
    DocumentSplit(e, stamp);
    Suffix(head, MarketContext(e) + "\n" + AfterContext(e, stamp));
  }

  lemma RegroupContext(s0: string, h1: string, body: string, h2: string, good: string,
                       s3: string, s4: string, f: string)
    ensures s0 + (h1 + "\n" + body + "\n\n") + (h2 + "\n" + good + "\n\n") + s3 + s4 + f
         == (s0 + h1 + "\n") + (body + "\n" + ("\n" + h2 + ("\n" + good + "\n\n" + s3 + s4 + f)))
  {
  }

  lemma Suffix(a: string, b: string)
    ensures (a + b)[|a|..] == b
  {
  }

  /** Free text that does not itself begin like a bullet. */
  predicate BulletFree(text: string) {
    !StartsWith(text, PriceMarker) && !StartsWith(text, TrendMarker)
  }

  /** The price line (empty without a price) opens the market-context section,
      the trend line (empty without a trend) comes right after it, and the free
      text follows both; each given field's line begins with its bullet. When
      the free text does not itself begin like a bullet, the bullets are there
      only when their fields were given. */
  lemma ContextBullets(e: Entry, stamp: string)
    ensures ContextStart(e) + |PriceLine(e.price)| + |TrendLine(e.trend)| <= |Document(e, stamp)|
    ensures StartsWith(Document(e, stamp)[ContextStart(e)..], PriceLine(e.price))
    ensures StartsWith(Document(e, stamp)[ContextStart(e) + |PriceLine(e.price)|..], TrendLine(e.trend))
    ensures e.price != [] ==> StartsWith(Document(e, stamp)[ContextStart(e)..], PriceMarker)
    ensures e.trend != [] ==> StartsWith(Document(e, stamp)[ContextStart(e) + |PriceLine(e.price)|..], TrendMarker)
    ensures StartsWith(Document(e, stamp)[ContextStart(e) + |PriceLine(e.price)| + |TrendLine(e.trend)|..],
                       e.background + "\n\n" + Heading(GoodTitle))
    ensures BulletFree(e.background) ==>
      && (StartsWith(Document(e, stamp)[ContextStart(e)..], PriceMarker) <==> e.price != [])
      && (StartsWith(Document(e, stamp)[ContextStart(e) + |PriceLine(e.price)|..], TrendMarker) <==> e.trend != [])
  {
    ContextTail(e, stamp);
    var more := "\n" + e.good + "\n\n" + Section(BadTitle, e.bad) + Section(LessonsTitle, e.lessons) + Footer(stamp);
    Bullets(e.price, e.trend, e.background, AfterContext(e, stamp));
    NextHeading(e.background, Heading(GoodTitle), more);
    DropFront(Document(e, stamp), ContextStart(e), |PriceLine(e.price)|);
    DropFront(Document(e, stamp), ContextStart(e), |PriceLine(e.price)| + |TrendLine(e.trend)|);
  }

  lemma DropFront(s: string, i: nat, j: nat)
    requires i + j <= |s|
    ensures s[i..][j..] == s[i + j..]
  {
  }

  lemma NextHeading(bg: string, h: string, more: string)
    ensures StartsWith(bg + "\n" + ("\n" + h + more), bg + "\n\n" + h)
  {
    assert bg + "\n" + ("\n" + h + more) == (bg + "\n\n" + h) + more;
  }

  lemma Bullets(price: string, trend: string, bg: string, rest: string)
    requires StartsWith(rest, "\n")
    ensures var t := PriceLine(price) + TrendLine(trend) + bg + "\n" + rest;
      && |PriceLine(price)| + |TrendLine(trend)| <= |t|
      && StartsWith(t, PriceLine(price))
      && StartsWith(t[|PriceLine(price)|..], TrendLine(trend))
      && (price != [] ==> StartsWith(t, PriceMarker))
      && (trend != [] ==> StartsWith(t[|PriceLine(price)|..], TrendMarker))
      && (BulletFree(bg) ==> (StartsWith(t, PriceMarker) <==> price != []))
      && (BulletFree(bg) ==> (StartsWith(t[|PriceLine(price)|..], TrendMarker) <==> trend != []))
      && t[|PriceLine(price)| + |TrendLine(trend)|..] == bg + "\n" + rest
  {
    var pl, tl := PriceLine(price), TrendLine(trend);
    var t := pl + tl + bg + "\n" + rest;
    assert t == pl + (tl + (bg + "\n" + rest));
    assert t[|pl|..] == tl + (bg + "\n" + rest);
    if BulletFree(bg) {
      NotMarkerAcrossNewline(PriceMarker, bg, rest);
      NotMarkerAcrossNewline(TrendMarker, bg, rest);
    }
    BulletsDiffer(trend);
  }

  lemma BulletsDiffer(trend: string)
    ensures trend != [] ==> !StartsWith(TrendLine(trend), PriceMarker)
    ensures trend != [] ==> forall rest :: !StartsWith(TrendLine(trend) + rest, PriceMarker)
  {
    if trend != [] {
      assert TrendLine(trend)[4] != PriceMarker[4];
      forall rest ensures !StartsWith(TrendLine(trend) + rest, PriceMarker) {
        assert (TrendLine(trend) + rest)[4] == TrendLine(trend)[4];
      }
    }
  }

  /** The heading whose section the search branch extracts. */
  const RawMarker := "## 原话\n"
  /** What the search branch shows when there is no such section. */
  const NoRawText := "无原话"

  /** A section break starts at `k`: a newline followed by `##` or by `---`. */
  predicate BreakAt(s: string, k: nat) {
    && k + 2 < |s|
    && s[k] == '\n'
    && ((s[k + 1] == '#' && s[k + 2] == '#')
        || (k + 3 < |s| && s[k + 1] == '-' && s[k + 2] == '-' && s[k + 3] == '-'))
  }

  predicate HasBreak(s: string) {
    exists k: nat :: k < |s| && BreakAt(s, k)
  }

  /** Where the lazy group of `## 原话\n(.*?)(?=\n##|\n---|$)` may stop: before a
      break, at the end, or (Python's `$`) before a final newline. */
  predicate StopAt(s: string, k: nat) {
    BreakAt(s, k) || k == |s| || (k + 1 == |s| && s[k] == '\n')
  }

  /** The first stopping position at or after `from`. */
  function RawEnd(s: string, from: nat): (j: nat)
    requires from <= |s|
    ensures from <= j <= |s| && StopAt(s, j)
    ensures forall k :: from <= k < j ==> !StopAt(s, k)
    decreases |s| - from
  {
    if StopAt(s, from) then from else RawEnd(s, from + 1)
  }

  /** The search branch's `raw_thoughts`: the stripped text after the first
      `## 原话` heading up to the next break, or `无原话` when the heading is
      missing. */
  function ExtractRaw(body: string): string {
    match Find(body, RawMarker, 0)
    case None => NoRawText
    case Some(i) =>
      var start := i + |RawMarker|;
      Strip(body[start..RawEnd(body, start)])
  }

  /** What is extracted never holds a section break. */
  lemma ExtractRawNoBreak(body: string)
    ensures !HasBreak(ExtractRaw(body))
  {
    match Find(body, RawMarker, 0)
    case None =>
      assert !BreakAt(NoRawText, 0) && !BreakAt(NoRawText, 1) && !BreakAt(NoRawText, 2);
    case Some(i) =>
      var start := i + |RawMarker|;
      ExtractedHasNoBreak(body, start, RawEnd(body, start));
  }

  /** A body without the heading shows the fallback text. */
  lemma MissingRawSection(body: string)
    requires !Occurs(body, RawMarker)
    ensures ExtractRaw(body) == NoRawText
  {
  }

  lemma ExtractedHasNoBreak(body: string, start: nat, end: nat)
    requires start <= end <= |body|
    requires forall k :: start <= k < end ==> !StopAt(body, k)
    ensures !HasBreak(Strip(body[start..end]))
  {
    var seg := body[start..end];
    var a, b := StripSlice(seg);
    var t := seg[a..b];
    SliceOfSlice(body, start, end, a, b);
    forall k: nat | k < |t| ensures !BreakAt(t, k) {
      BreakInside(body, start + a, |t|, k);
      assert !StopAt(body, start + a + k);
    }
  }

  lemma SliceOfSlice(s: string, i: nat, j: nat, a: nat, b: nat)
    requires i <= j <= |s| && a <= b <= j - i
    ensures s[i..j][a..b] == s[i + a..i + b]
  {
    assert forall m :: 0 <= m < b - a ==> s[i..j][a..b][m] == s[i + a + m];
  }

  /** A break inside a piece of `s` is a break of `s` at the shifted position. */
  lemma BreakInside(s: string, o: nat, n: nat, k: nat)
    requires o + n <= |s| && k < n
    ensures BreakAt(s[o..o + n], k) ==> BreakAt(s, o + k)
  {
  }

  /** Round trip: the raw-thoughts section extracted from a document comes back
      as the `raw_thoughts` that were formatted, stripped, provided they do
      not themselves contain a section break (counting the newline that
      precedes them in the document). */
  lemma RawRoundTrip(e: Entry, stamp: string)
    requires !HasBreak("\n" + e.rawThoughts)
    ensures ExtractRaw(Document(e, stamp)) == Strip(e.rawThoughts)
  {
    var raw := e.rawThoughts;
    var rest := Section(ContextTitle, MarketContext(e)) + Section(GoodTitle, e.good)
                + Section(BadTitle, e.bad) + Section(LessonsTitle, e.lessons) + Footer(stamp);
    RegroupRaw(Heading(RawTitle), raw, Section(ContextTitle, MarketContext(e)), Section(GoodTitle, e.good),
               Section(BadTitle, e.bad), Section(LessonsTitle, e.lessons), Footer(stamp));
    assert Heading(RawTitle) == RawMarker;
    assert rest[0] == '#' && rest[1] == '#';
    ExtractFromLayout("\n" + raw, rest);
    assert "\n" + raw + "\n" == ['\n'] + raw + ['\n'];
    StripPadded('\n', raw, '\n');
  }

  /** The proviso of the round trip is needed even at the very start: raw
      thoughts that begin with `##` read as the next heading, and nothing is
      extracted. */
  lemma HeadingLikeRaw(e: Entry, stamp: string, t: string)
    requires e.rawThoughts == "##" + t
    ensures ExtractRaw(Document(e, stamp)) == []
  {
    var rest := Section(ContextTitle, MarketContext(e)) + Section(GoodTitle, e.good)
                + Section(BadTitle, e.bad) + Section(LessonsTitle, e.lessons) + Footer(stamp);
    RegroupRaw(Heading(RawTitle), e.rawThoughts, Section(ContextTitle, MarketContext(e)), Section(GoodTitle, e.good),
               Section(BadTitle, e.bad), Section(LessonsTitle, e.lessons), Footer(stamp));
    assert Heading(RawTitle) == RawMarker;
    var x := "\n" + e.rawThoughts;
    AppendAssoc(RawMarker + x, "\n\n", rest);
    AppendAssoc(RawMarker, x, "\n\n" + rest);
    assert x[0] == '\n' && x[1] == '#' && x[2] == '#';
    BreakAfterMarker(x + ("\n\n" + rest));
  }

  /** A break right after the heading leaves nothing to extract. */
  lemma BreakAfterMarker(x: string)
    requires |x| >= 3 && x[0] == '\n' && x[1] == '#' && x[2] == '#'
    ensures ExtractRaw(RawMarker + x) == []
  {
    var body := RawMarker + x;
    assert StartsWith(body[0..], RawMarker);
    assert body[6] == x[0] && body[7] == x[1] && body[8] == x[2];
    assert BreakAt(body, 6);
  }

  lemma RegroupRaw(h0: string, raw: string, s1: string, s2: string, s3: string, s4: string, f: string)
    ensures h0 + "\n" + raw + "\n\n" + s1 + s2 + s3 + s4 + f
         == h0 + ("\n" + raw) + "\n\n" + (s1 + s2 + s3 + s4 + f)
  {
  }

  /** The text between a leading `## 原话` heading and a following blank line and
      heading is what the search branch extracts, when it holds no break. */
  lemma ExtractFromLayout(s: string, rest: string)
    requires !HasBreak(s)
    requires |rest| >= 2 && rest[0] == '#' && rest[1] == '#'
    ensures ExtractRaw(RawMarker + s + "\n\n" + rest) == Strip(s + "\n")
  {
    var x := RawMarker + s + "\n\n" + rest;
    var n := |s|;
    assert StartsWith(x[0..], RawMarker);
    forall k | |RawMarker| <= k < |RawMarker| + n + 1 ensures !StopAt(x, k) {
      NoStopInRaw(s, rest, k - |RawMarker|);
    }
    assert x[6 + n] == '\n' && x[7 + n] == '\n' && x[8 + n] == '#' && x[9 + n] == '#';
    assert StopAt(x, 7 + n);
    assert x[6..7 + n] == s + "\n";
  }

  /** No stop inside the extracted text: a break there would lie within `s`,
      because the character after `s` is a newline. */
  lemma NoStopInRaw(s: string, rest: string, k: nat)
    requires !HasBreak(s)
    requires |rest| >= 2 && k <= |s|
    ensures !StopAt(RawMarker + s + "\n\n" + rest, |RawMarker| + k)
  {
    var x := RawMarker + s + "\n\n" + rest;
    var n := |s|;
    assert forall i :: 0 <= i < n ==> x[6 + i] == s[i];
    assert x[6 + n] == '\n' && x[7 + n] == '\n';
    assert k < n ==> !BreakAt(s, k);
  }
}
