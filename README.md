# Trading-lesson bot: a verified model of its text handling

The bot listens to a chat channel and keeps trading-lesson notes as issues of a
tracker repository. Everything it does passes through a handful of
deterministic string and collection routines, and those routines are what this
project models and proves properties of:

- `parse_tags`: a free-form tag string becomes a list of tags (module `Tags`);
- `create_issue_content`: an entry becomes a fixed Markdown document (module `Entry`);
- the search branch's extraction of the "原话" (raw thoughts) section from an
  issue body, and its 100-character preview (modules `Entry`, `Replies`);
- the query string `search_issues` hands to the tracker (module `Tracker`);
- the `on_message` handler: which command a message selects, and the replies
  and tracker requests each command produces (module `Dispatch`);
- the replies of `!搜索` (five results at most, cut to 2000 characters) and
  `!最近` (the count argument, the numbered listing), in module `Replies`;
- the `!统计` tally of labels and its ranking by count, in module `Stats`.

Module `Text` holds the Python string builtins the code relies on: `isspace`,
`split()`, `strip()`, `replace`, `startswith`, `join`, `isdigit`, `int` and
`str` on numbers, and slicing to a length. It also holds the left-to-right
scan for a pattern (`Find`) that the search branch's `re.search` performs.

`create_issue_content` has no loop: its guarded `content +=` appends are the
straight-line method `CreateIssueContent`, proved equal to the section
document `Document`. The loops of the source are methods with loop invariants,
each proved equal to a specification function: `BuildSearchQuery` (the label
loop), `RenderSearch` (the counting loop with its
`break`), `RenderRecent` (the `enumerate` loop), `TallyLabels`/`TallyIssue` (the
nested loops that update the label dict and the total) and `AppendRankLines`
(the loop over the sorted items). The properties are then proved about the
specification functions.

The dict `label_counts` is modelled as a `map` plus the sequence of its keys in
insertion order, because `label_counts.items()` yields items in that order and
the stable sort keeps that order among labels with equal counts.

Some choices follow Python's own behaviour:

- Whitespace is the set `str.isspace` recognises (ASCII whitespace, the
  information separators, NEL, NBSP and the Unicode space characters,
  ideographic space included).
- The lazy regular expression `## 原话\n(.*?)(?=\n##|\n---|$)` with `re.DOTALL` is
  written out as a search. Its first match begins at the first occurrence of
  the heading. The group stops at the first position followed by `\n##` or
  `\n---`, at the end of the text, or (Python's `$` without `re.MULTILINE`)
  before a final newline.
- `sorted(..., key=count, reverse=True)` is stable, so equal counts keep the
  dict's order. It is modelled as an insertion sort that puts an item after
  every item with at least its count.

## Model

| member | source | states |
|---|---|---|
| Text.Split | bot.py:75 | `s.split()`, the maximal runs of non-whitespace characters; no ensures of its own: `SplitWords`, `SplitConcat`, `SplitBefore` and `SplitAround` state its properties |
| Text.SplitWords | bot.py:75 | every word `split()` returns is non-empty, holds no whitespace, and is made of characters of the input |
| Text.WordLengthAppend | bot.py:75 | the first word of a string is unchanged by appending text, when the word ends inside it or the appended text begins with whitespace |
| Text.SplitBefore | bot.py:75 | text that begins with whitespace starts a new word: `split()` of `x + r` is the words of `x` followed by the words of `r` |
| Text.SplitAround | bot.py:75 | a whitespace character separates words: `split()` of `x + c + y` is the words of `x` followed by the words of `y` |
| Text.SplitConcat | bot.py:75 | the words of `split()` glued together are the input with its whitespace deleted (order kept, nothing else lost) |
| Text.ReplaceAll | bot.py:75 | `s.replace(pat, rep)`, left to right and non-overlapping; no ensures of its own: `ReplaceAbsent`, `Tags.SpacedChars` and `Dispatch.SearchTextOf` state its properties |
| Text.Strip | bot.py:207 | `s.strip()`; no ensures of its own: `StripSlice` and `StripExact` (exactly the leading and trailing whitespace goes), `StripNoSpace`, `StripPadded` and `Dispatch.SearchTextBlank` state its properties |
| Text.StripSlice | bot.py:233 | what `strip()` keeps is the slice `s[a:b]` with only whitespace before `a` and from `b` on, which begins and ends with a non-whitespace character when it is not empty |
| Text.StripExact | bot.py:207 | whitespace, then text that is empty or begins and ends with a non-whitespace character, then whitespace, strips to that text, inner spaces included |
| Text.ReplaceAbsent | bot.py:207 | `replace` leaves a string without the pattern unchanged |
| Text.Join | bot.py:239 | `sep.join(parts)`; no ensures of its own: `Tags.JoinedTags` is its partner |
| Text.Find | bot.py:232 | the index found is the first occurrence of the pattern at or after the start; none is reported only when there is no occurrence |
| Text.Take | bot.py:244 | `s[:n]` is a prefix of `s` of length at most `n`; it is `s` itself when `s` is short, exactly `n` long otherwise |
| Text.DecimalRoundTrip | bot.py:250-251 | `int(str(n)) == n`: reading back the decimal form of a number gives the number |
| Tags.ParseTags | bot.py:70-77 | absent or empty input gives `[]`; every tag is non-empty and holds no ASCII comma, full-width comma or whitespace |
| Tags.SpacedWords | bot.py:75-77 | after splitting, the `strip` and the filter of empty tags change nothing |
| Tags.SpacedChars | bot.py:75 | replacing both commas by spaces keeps the length and changes exactly the comma characters |
| Tags.ParseTagsConcat | bot.py:75-77 | order is preserved: the tags glued together are the input with every separator deleted |
| Tags.ParseTagsSplit | bot.py:72-77 | `parse_tags` is `split()` of the input with both commas made spaces: the strip and the filter remove nothing |
| Tags.SpacedAppend | bot.py:75 | replacing the commas distributes over joining strings |
| Tags.SeparatorSplits | bot.py:75-77 | a separator splits tags: the tags of `a + c + b` for a separator `c` are the tags of `a` followed by the tags of `b` |
| Tags.OnlySeparators | bot.py:72-77 | an input made of separators only yields no tags |
| Tags.JoinedTags | bot.py:239 | labels made by `parse_tags`, shown with `', '.join`, parse back to the same list of tags |
| Tags.SingleTag | bot.py:75-77 | a non-empty input without separators is one tag, itself |
| Entry.CreateIssueContent | bot.py:32-67 | the text built by the guarded `+=` steps is the section document: five sections in order, then the footer stamped with the given time |
| Entry.DocumentLayout | bot.py:34-66 | the five headings `原话`, `市场背景`, `做得好的地方`, `做得不好的地方`, `核心教训` start at strictly increasing offsets, each followed by a blank line, its field (also when empty) and a blank line; the `---` footer takes the rest |
| Entry.ContextBullets | bot.py:42-47 | the whole price line (with its value) and then the whole trend line open the market-context section, each beginning with its bullet when its field was given, and the background text comes after both; when the background does not itself begin like a bullet, each bullet is there only if its field was given |
| Entry.ExtractRaw | bot.py:232-233 | the regular-expression search for the `## 原话` section and the `无原话` fallback; no ensures of its own: `RawRoundTrip`, `ExtractRawNoBreak`, `MissingRawSection`, `HeadingLikeRaw` and `BreakAfterMarker` state its properties |
| Entry.RawEnd | bot.py:232 | the lazy group ends at the first position where a break, the end of the text or a final newline follows |
| Entry.ExtractRawNoBreak | bot.py:232-233 | the extracted raw thoughts never contain a section break |
| Entry.MissingRawSection | bot.py:233 | a body without the `## 原话` heading yields `无原话` |
| Entry.RawRoundTrip | bot.py:232-233 | extracting the raw section from `create_issue_content`'s document gives back the raw thoughts, stripped, when they hold no section break (the document's newline before them counted) |
| Entry.HeadingLikeRaw | bot.py:232-233 | raw thoughts that begin with `##` are lost on extraction, so the round trip's proviso must cover the start of the text too |
| Entry.BreakAfterMarker | bot.py:232-233 | a section break right after the `## 原话` heading leaves nothing to extract |
| Tracker.BuildSearchQuery | bot.py:104-107 | the loop builds `repo:<name> <query>` followed by one ` label:<name>` per label, in order |
| Tracker.SearchQueryShape | bot.py:104-107 | without labels the query is the repository qualifier and the text; the text always follows the qualifier unchanged; each label adds its length plus seven characters |
| Replies.EntryHead | bot.py:238-240 | the number and title, label and date lines of a listed issue; no ensures of its own: `RenderSearch`, `RenderRecent` and `Tags.JoinedTags` state what a listing holds |
| Replies.SearchEntry | bot.py:238-242 | a search result: the head, the quoted preview and the link; no ensures of its own: `SearchReply`, `RecordedPreview` and `RenderSearch` use it |
| Replies.RecentEntry | bot.py:258-261 | a `!最近` entry: the head and the link; no ensures of its own: `RenderRecent` and `RecentFirst` use it |
| Replies.Preview | bot.py:236 | text of at most 100 characters is shown whole; longer text shows its first 100 characters followed by `...`; never more than 103 characters |
| Replies.SearchReply | bot.py:217-244 | the reply is at most 2000 characters; it is the not-found message iff the search found nothing; otherwise it is the count line followed by the first five entries, whole when that is at most 2000 characters and its first 2000 characters otherwise |
| Replies.RenderSearch | bot.py:222-244 | the counting loop with its `break` after the fifth issue sends exactly the search reply |
| Replies.ListingAgrees | bot.py:225-242 | a listing of `k` issues depends on those `k` issues only |
| Replies.FirstFiveShown | bot.py:224-228 | beyond their number, only the first five matches affect the search reply |
| Replies.RecordedPreview | bot.py:232-236 | an issue the bot recorded previews its stripped raw thoughts (whole when at most 100 characters) |
| Replies.RecentCount | bot.py:248-251 | the count `!最近` asks for; no ensures of its own: `RecentCountGiven` and `RecentCountDefault` state both of its cases |
| Replies.RecentCountGiven | bot.py:248-251 | `!最近 <n>` (possibly followed by more words) asks for `n` issues |
| Replies.RecentCountDefault | bot.py:248-251 | `!最近` alone, or followed by a word that is not all digits, asks for five |
| Replies.SecondWord | bot.py:249-250 | two words separated by a space: `split()[1]` is the second |
| Replies.RenderRecent | bot.py:255-263 | the `enumerate` loop sends the header with the requested count and the first `count` issues, numbered from 1 |
| Replies.RecentFirst | bot.py:257 | the `!最近` reply depends on the first `count` issues only, so at most `count` issues are listed |
| Stats.FirstIndex | bot.py:276 | the position of the first occurrence of a label |
| Stats.FirstIndexAppend | bot.py:276 | a label met later moves no earlier label's first occurrence |
| Stats.DistinctAppend | bot.py:276 | a label met for the first time joins the end of the key order; one met before changes nothing |
| Stats.Distinct | bot.py:276 | the dict's keys in insertion order: exactly the labels used, each once, ordered by their first occurrence |
| Stats.TallyLabels | bot.py:268-276 | `total` is the number of issues; the dict maps each label used to its number of occurrences across all label lists; its keys are in order of first use |
| Stats.TallyIssue | bot.py:275-276 | the inner loop adds one issue's labels to the tally |
| Stats.TallyAppend | bot.py:276 | `label_counts.get(name, 0) + 1` keeps the tally equal to the occurrence counts |
| Stats.InsertByCount | bot.py:283 | one insertion step of the stable sort by count, largest first; no ensures of its own: `InsertSorted`, `InsertPerm` and `InsertKeepsTies` state its properties |
| Stats.SortByCount | bot.py:283 | `sorted(items, key=count, reverse=True)`; no ensures of its own: `SortByCountSorted` and `SortByCountStable` state its properties |
| Stats.InsertSorted | bot.py:283 | inserting into a list ordered by count keeps it ordered |
| Stats.InsertPerm | bot.py:283 | inserting adds the item and keeps every other |
| Stats.SortByCountSorted | bot.py:283 | the sort orders by count, largest first, and is a permutation of the items |
| Stats.SortByCountStable | bot.py:283 | items with equal counts keep the order they had in the dict |
| Stats.ItemsOnce | bot.py:283 | each key of the dict gives exactly one item, with its count, and nothing else is an item |
| Stats.RankingSound | bot.py:281-284 | the ranking holds each label used exactly once with its number of uses, nothing else, in non-increasing count order |
| Stats.RankingTies | bot.py:283-284 | labels with equal counts are ranked in the order they were first met |
| Stats.StatsHasLabels | bot.py:281 | the ranking is empty iff no issue has a label |
| Stats.CountsPresent | bot.py:281 | the dict is non-empty iff some issue has a label |
| Stats.RenderStats | bot.py:278-286 | the reply is the header with the total, then the `标签分布` section only when the dict is non-empty, one line per ranked label |
| Stats.AppendRankLines | bot.py:283-284 | the loop appends one `- label: n 条` line per item, in ranking order |
| Dispatch.Classify | bot.py:126-266 | the handler's `if`/`elif` chain; no ensures of its own: `ClassifyFirstMatch` and `EveryCommandReachable` state its properties |
| Dispatch.FirstFiring | bot.py:130-266 | the position found is the first rule that fires, or the end when none fires |
| Dispatch.ClassifyFirstMatch | bot.py:126-266 | the handler's `if`/`elif` chain is the rule table read top down: bot messages are ignored, others take the first firing rule (help exact, 记录/快速记录/搜索/最近 prefix, 统计 exact), no firing rule means ignored |
| Dispatch.EveryCommandReachable | bot.py:130-266 | no branch shadows another: each command's own word selects it |
| Dispatch.EarlierMiss | bot.py:130-266 | no earlier rule fires for a later command's word |
| Dispatch.SearchText | bot.py:207 | `content.replace('!搜索', '').strip()`; no ensures of its own: `SearchTextOf` and `SearchTextBlank` state its properties |
| Dispatch.SearchTextOf | bot.py:207 | after `!搜索`, text without another `!搜索` is searched for as written, stripped |
| Dispatch.SearchTextBlank | bot.py:207-211 | `!搜索` followed by whitespace only (any character `strip()` removes) leaves nothing to search for |
| Dispatch.OnMessage | bot.py:125-286 | per command: bot and unmatched messages get no reply and no request; help, 记录 and 快速记录 send their fixed text; an empty search text gets the error and no search; otherwise the search request and the two replies; 最近 and 统计 list the open issues once and send their reply |

## Left out

- Chat I/O: the Discord client, `on_ready` and every `send` are left out; the replies a message produces are returned as a sequence, in order.
- Tracker calls: the tracker client, `get_repo`, `get_labels`, `create_label`, `create_issue`, `search_issues`'s remote call and `get_issues` are left out; the search is a function from query strings to issue sequences; the recorded request carries `state="open"` (bot.py:109), and that the tracker then returns open issues only is its behaviour, not modelled; and the open issues (newest first) are one input sequence serving both `!最近` and `!统计`.
- `create_github_issue` is left out: it only makes remote writes, and no command calls it.
- Environment variables, the start-up checks and `exit(1)` are left out as process plumbing; the repository name is a field of the tracker value.
- `datetime.now()` and `strftime` are left out; the footer's time stamp and each issue's creation date are already-formatted strings passed in.
- The failure path of `search_issues` is left out: on an exception it returns a plain list, which has no `totalCount`. The model's search always returns a result.
- `totalCount` is taken to be the number of results the search returns; paging of search results is not modelled.
- Issue bodies are strings; a missing body (`None`) is not modelled.
- `isdigit`: only ASCII digits count, so other Unicode decimal digits (which Python's `isdigit` and `int` also accept) are not modelled.
- Regular expressions in general are not modelled; only the one pattern the search branch uses, written out as a search.
- The record dialogue is left out: `!记录` only sends a prompt, and the quick template's `!记录 标题 …` message is also routed to that prompt. The source holds no code that parses a filled-in template or creates the issue from a chat message.
- The order of requests and replies is modelled only within a command. For example, the search text is sent before the search request is made.
- Entry.ContextBullets: the "only if" halves are stated for background text that does not itself begin with a bullet marker; such text would read as a bullet.
- Entry.RawRoundTrip: needs raw thoughts without a section break. The document's newline before the raw thoughts counts, so text beginning with `##` or `---` is excluded too.
- Entry.MissingRawSection: states one direction only: a missing heading gives the fallback text. The case of a present heading is covered by Entry.RawRoundTrip and Entry.ExtractRawNoBreak.
