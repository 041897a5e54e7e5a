/** The replies of the search and recent-issues commands: the preview of an
    issue's raw thoughts, the numbered listings and the `!最近` count argument. */
module Replies {
  import opened Text
  import opened Entry
  import opened Tracker

  /** How many characters of the raw thoughts a search result shows. */
  const PreviewLength := 100
  /** How many search results are listed. */
  const ShownResults := 5
  /** The longest reply the search command sends. */
  const MessageLimit := 2000
  /** The `!最近` count when none is given. */
  const DefaultRecent := 5

  function Min(a: nat, b: nat): nat {
    if a <= b then a else b
  }

  /** `raw[:100] + "..." if len(raw) > 100 else raw`: short text is shown whole,
      long text is cut to its first hundred characters and marked with `...`. */
  function Preview(raw: string): (r: string)
    ensures |r| <= PreviewLength + 3
    ensures |raw| <= PreviewLength ==> r == raw
    ensures |raw| > PreviewLength ==>
      |r| == PreviewLength + 3 && r[..PreviewLength] == raw[..PreviewLength] && r[PreviewLength..] == "..."
  {
    if |raw| > PreviewLength then raw[..PreviewLength] + "..." else raw
  }

  /** The label line's names, `', '.join(...)`. */
  function LabelList(issue: Issue): string {
    Join(issue.labels, ", ")
  }

  /** The first lines of a listed issue: its number and title, labels and date. */
  function EntryHead(n: nat, issue: Issue): string {
    "**" + NatToString(n) + ". " + issue.title + "**\n"
    + "\U{1F3F7}\U{FE0F} " + LabelList(issue) + "\n"
    + "📅 " + issue.createdDate + "\n"
  }

  /** The raw thoughts a search result shows for an issue. */
  function RawPreview(issue: Issue): string {
    Preview(ExtractRaw(issue.body))
  }

  /** A search result: the head, the quoted preview and the link. */
  function SearchEntry(n: nat, issue: Issue): string {
    EntryHead(n, issue) + "> " + RawPreview(issue) + "\n" + "🔗 " + issue.url + "\n\n"
  }

  /** A `!最近` entry: the head and the link. */
  function RecentEntry(n: nat, issue: Issue): string {
    EntryHead(n, issue) + "🔗 " + issue.url + "\n\n"
  }

  /** The entries of the first `k` issues, numbered from 1. */
  function Listing(entry: (nat, Issue) -> string, issues: seq<Issue>, k: nat): string
    requires k <= |issues|
  {
    if k == 0 then [] else Listing(entry, issues, k - 1) + entry(k, issues[k - 1])
  }

  lemma ListingStep(entry: (nat, Issue) -> string, issues: seq<Issue>, k: nat)
    requires k < |issues|
    ensures Listing(entry, issues, k + 1) == Listing(entry, issues, k) + entry(k + 1, issues[k])
  {
  }

  /** A listing of `k` issues depends on those `k` issues only. */
  lemma {:induction false} ListingAgrees(entry: (nat, Issue) -> string, a: seq<Issue>, b: seq<Issue>, k: nat)
    requires k <= |a| && k <= |b| && a[..k] == b[..k]
    ensures Listing(entry, a, k) == Listing(entry, b, k)
  {
    if k > 0 {
      assert a[k - 1] == a[..k][k - 1] == b[..k][k - 1] == b[k - 1];
      assert a[..k - 1] == a[..k][..k - 1] == b[..k][..k - 1] == b[..k - 1];
      ListingAgrees(entry, a, b, k - 1);
    }
  }

  const NotFound := "❌ 没有找到相关经验"

  function SearchHeader(total: nat): string {
    "✅ 找到 **" + NatToString(total) + "** 条相关经验\n\n"
  }

  /** The search results reply: the not-found message when the search found
      nothing, otherwise the count of matches and the first five of them,
      cut to the message limit. */
  function SearchReply(issues: seq<Issue>): (r: string)
    ensures |r| <= MessageLimit
    ensures issues == [] <==> r == NotFound
    ensures issues != [] ==> var full := SearchHeader(|issues|) + Listing(SearchEntry, issues, Min(ShownResults, |issues|));
      && StartsWith(full, r)
      && (|full| <= MessageLimit ==> r == full)
      && (|full| > MessageLimit ==> |r| == MessageLimit)
  {
    if issues == [] then NotFound
    else
      var r := Take(SearchHeader(|issues|) + Listing(SearchEntry, issues, Min(ShownResults, |issues|)), MessageLimit);
      assert StartsWith(r, "✅") by {
        assert StartsWith(SearchHeader(|issues|), "✅");
      }
      r
  }

  /** The search branch's loop: it counts the issues, stops once the count
      passes five, and appends one entry per issue before sending the first
      2000 characters. */
  method RenderSearch(issues: seq<Issue>) returns (reply: string)
    ensures reply == SearchReply(issues)
  {
    if |issues| == 0 {
      return NotFound;
    }
    var result := SearchHeader(|issues|);
    var count := 0;
    var i := 0;
    while i < |issues|
      invariant 0 <= i <= |issues| && i <= ShownResults && count == i
      invariant result == SearchHeader(|issues|) + Listing(SearchEntry, issues, i)
    {
      var issue := issues[i];
      count := count + 1;
      if count > ShownResults {
        break;
      }
      ListingStep(SearchEntry, issues, i);
      AppendAssoc(SearchHeader(|issues|), Listing(SearchEntry, issues, i), SearchEntry(count, issue));
      result := result + SearchEntry(count, issue);
      i := i + 1;
    }
    assert i == Min(ShownResults, |issues|);
    reply := Take(result, MessageLimit);
  }

  /** Only the number of matches and the first five matches show in the search
      reply: matches beyond the fifth may be anything. */
  lemma FirstFiveShown(a: seq<Issue>, b: seq<Issue>)
    requires |a| == |b|
    requires a[..Min(ShownResults, |a|)] == b[..Min(ShownResults, |b|)]
    ensures SearchReply(a) == SearchReply(b)
  {
    ListingAgrees(SearchEntry, a, b, Min(ShownResults, |a|));
  }

  /** An issue the bot recorded shows the raw thoughts it was given, stripped
      and previewed, in the search results, provided they hold no section break. */
  lemma RecordedPreview(e: Entry, stamp: string, issue: Issue)
    requires issue.body == Document(e, stamp)
    requires !HasBreak("\n" + e.rawThoughts)
    ensures RawPreview(issue) == Preview(Strip(e.rawThoughts))
    ensures |Strip(e.rawThoughts)| <= PreviewLength ==> RawPreview(issue) == Strip(e.rawThoughts)
  {
    RawRoundTrip(e, stamp);
  }

  /** `!最近`'s count: the second whitespace-separated word when it is all digits,
      five otherwise. */
  function RecentCount(content: string): nat {
    var args := Split(content);
    if |args| > 1 && IsDecimal(args[1]) then DecimalValue(args[1]) else DefaultRecent
  }

  /** A command word followed by a number (and possibly more words) asks for
      that many issues. */
  lemma RecentCountGiven(command: string, n: nat, more: string)
    requires command != [] && NoSpace(command)
    requires more == [] || IsSpace(more[0])
    ensures RecentCount(command + " " + NatToString(n) + more) == n
  {
    SecondWord(command, NatToString(n), more);
    DecimalRoundTrip(n);
  }

  /** A command word alone, or followed by a word that is not all digits, asks
      for the default five. */
  lemma RecentCountDefault(command: string, word: string, more: string)
    requires command != [] && NoSpace(command)
    requires word != [] && NoSpace(word) && !IsDecimal(word)
    requires more == [] || IsSpace(more[0])
    ensures RecentCount(command) == DefaultRecent
    ensures RecentCount(command + " " + word + more) == DefaultRecent
  {
    SplitWord(command, []);
    assert command + [] == command;
    SecondWord(command, word, more);
  }

  /** Two words separated by a space: the second is what `split()[1]` gives. */
  lemma SecondWord(a: string, b: string, more: string)
    requires a != [] && NoSpace(a) && b != [] && NoSpace(b)
    requires more == [] || IsSpace(more[0])
    ensures |Split(a + " " + b + more)| > 1 && Split(a + " " + b + more)[1] == b
  {
    var tail := " " + (b + more);
    AppendAssoc(a + " ", b, more);
    AppendAssoc(a, " ", b + more);
    SplitWord(a, tail);
    SplitSpace(b + more);
    SplitWord(b, more);
  }

  lemma SplitSpace(s: string)
    ensures Split(" " + s) == Split(s)
  {
    assert (" " + s)[1..] == s;
  }

  /** A word followed by the end or by whitespace is the first word `split()` gives. */
  lemma {:induction false} SplitWord(w: string, rest: string)
    requires w != [] && NoSpace(w)
    requires rest == [] || IsSpace(rest[0])
    ensures Split(w + rest) == [w] + Split(rest)
  {
    WordLengthOf(w, rest);
    assert (w + rest)[..|w|] == w;
    assert (w + rest)[|w|..] == rest;
  }

  lemma {:induction false} WordLengthOf(w: string, rest: string)
    requires NoSpace(w)
    requires rest == [] || IsSpace(rest[0])
    ensures WordLength(w + rest) == |w|
  {
    if w != [] {
      assert (w + rest)[1..] == w[1..] + rest;
      WordLengthOf(w[1..], rest);
    }
  }

  function RecentHeader(count: nat): string {
    "📋 **最近 " + NatToString(count) + " 条记录**\n\n"
  }

  /** The `!最近` reply: the requested count in the header, then the first
      `count` open issues (or all of them, when there are fewer). */
  function RecentReply(count: nat, issues: seq<Issue>): string {
    RecentHeader(count) + Listing(RecentEntry, issues, Min(count, |issues|))
  }

  /** The `!最近` loop over `enumerate(issues[:count])`. */
  method RenderRecent(count: nat, issues: seq<Issue>) returns (reply: string)
    ensures reply == RecentReply(count, issues)
  {
    var listed := issues[..Min(count, |issues|)];
    reply := RecentHeader(count);
    var i := 0;
    while i < |listed|
      invariant 0 <= i <= |listed|
      invariant reply == RecentHeader(count) + Listing(RecentEntry, issues, i)
    {
      ListingStep(RecentEntry, issues, i);
      AppendAssoc(RecentHeader(count), Listing(RecentEntry, issues, i), RecentEntry(i + 1, issues[i]));
      reply := reply + RecentEntry(i + 1, listed[i]);
      i := i + 1;
    }
  }

  /** At most `count` issues are listed: the reply depends on the first `count`
      issues only, and asking for more issues than there are lists them all. */
  lemma RecentFirst(count: nat, a: seq<Issue>, b: seq<Issue>)
    requires a[..Min(count, |a|)] == b[..Min(count, |b|)]
    ensures RecentReply(count, a) == RecentReply(count, b)
  {
    ListingAgrees(RecentEntry, a, b, Min(count, |a|));
  }
}
