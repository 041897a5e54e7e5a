/** `on_message`: which command a chat message selects, and the replies and
    tracker requests each command produces. */
module Dispatch {
  import opened Text
  import opened Tracker
  import opened Replies
  import opened Stats

  /** A chat message: its text and whether a bot wrote it. */
  datatype Message = Message(content: string, fromBot: bool)

  /** The branch of the handler a message takes. */
  datatype Command = Ignored | Help | Record | QuickRecord | Search | Recent | Statistics

  /** A request the handler makes to the tracker: a search restricted to
      issues in the given state, or the listing of the open issues. */
  datatype Call = SearchIssues(query: string, state: string) | ListOpenIssues

  /** The state the search asks for. */
  const OpenState := "open"

  const HelpWords := ["!帮助", "!help", "!h"]
  const RecordPrefix := "!记录"
  const QuickPrefix := "!快速记录"
  const SearchPrefix := "!搜索"
  const RecentPrefix := "!最近"
  const StatsWord := "!统计"

  /** The handler's chain of tests, first match wins: help and statistics need
      the exact word, the other commands only a prefix. */
  function Classify(m: Message): Command {
    if m.fromBot then Ignored
    else if m.content in HelpWords then Help
    else if StartsWith(m.content, RecordPrefix) then Record
    else if StartsWith(m.content, QuickPrefix) then QuickRecord
    else if StartsWith(m.content, SearchPrefix) then Search
    else if StartsWith(m.content, RecentPrefix) then Recent
    else if m.content == StatsWord then Statistics
    else Ignored
  }

  /** A command word and how a message must match it. */
  datatype Trigger = Exact(word: string) | Prefix(word: string)

  predicate Fires(t: Trigger, content: string) {
    match t
    case Exact(w) => content == w
    case Prefix(w) => StartsWith(content, w)
  }

  /** The commands' triggers in priority order. */
  const Rules: seq<(Trigger, Command)> := [
    (Exact("!帮助"), Help), (Exact("!help"), Help), (Exact("!h"), Help),
    (Prefix(RecordPrefix), Record), (Prefix(QuickPrefix), QuickRecord),
    (Prefix(SearchPrefix), Search), (Prefix(RecentPrefix), Recent),
    (Exact(StatsWord), Statistics)]

  /** The position of the first rule that fires, or the number of rules when
      none does. */
  function FirstFiring(rules: seq<(Trigger, Command)>, content: string): (i: nat)
    ensures i <= |rules|
    ensures i < |rules| ==> Fires(rules[i].0, content)
    ensures forall j :: 0 <= j < i ==> !Fires(rules[j].0, content)
  {
    if rules == [] then 0
    else if Fires(rules[0].0, content) then 0
    else 1 + FirstFiring(rules[1..], content)
  }

  /** The handler's chain is the rule table read top down: a bot's message is
      ignored, any other takes the command of the first rule that fires, and a
      message no rule fires for is ignored. */
  lemma ClassifyFirstMatch(m: Message)
    ensures var i := FirstFiring(Rules, m.content);
      Classify(m) == if m.fromBot || i == |Rules| then Ignored else Rules[i].1
  {
    var c := m.content;
    var k := if c == "!帮助" then 0 else if c == "!help" then 1 else if c == "!h" then 2
      else if StartsWith(c, RecordPrefix) then 3 else if StartsWith(c, QuickPrefix) then 4
      else if StartsWith(c, SearchPrefix) then 5 else if StartsWith(c, RecentPrefix) then 6
      else if c == StatsWord then 7 else 8;
    FirstIs(Rules, c, k);
  }

  /** The first rule that fires is the one that fires with none firing before it. */
  lemma FirstIs(rules: seq<(Trigger, Command)>, content: string, k: nat)
    requires k <= |rules|
    requires k < |rules| ==> Fires(rules[k].0, content)
    requires forall j :: 0 <= j < k ==> !Fires(rules[j].0, content)
    ensures FirstFiring(rules, content) == k
  {
  }

  /** No command shadows another: each command's own word selects it. */
  lemma EveryCommandReachable(i: nat)
    requires i < |Rules|
    ensures Classify(Message(Rules[i].0.word, false)) == Rules[i].1
  {
    var w := Rules[i].0.word;
    ClassifyFirstMatch(Message(w, false));
    EarlierMiss(i);
    FirstIs(Rules, w, i);
  }

  /** No rule before a command's own rule fires for its word. */
  lemma EarlierMiss(i: nat)
    requires i < |Rules|
    ensures forall j :: 0 <= j < i ==> !Fires(Rules[j].0, Rules[i].0.word)
  {
    var w := Rules[i].0.word;
    WordsDiffer();
    forall j | 0 <= j < i ensures !Fires(Rules[j].0, w) {
      if !(j == 1 && i == 2) {
        assert Rules[j].0.word[1] != w[1];
      }
    }
  }

  /** The command words differ in their second character, except the two help
      words beginning `!h`, which differ in length. */
  lemma WordsDiffer()
    ensures forall i, j :: 0 <= i < j < |Rules| && !(i == 1 && j == 2) ==> Rules[i].0.word[1] != Rules[j].0.word[1]
  {
  }

  /** The search text: the message with every `!搜索` removed, then stripped. */
  function SearchText(content: string): string {
    Strip(ReplaceAll(content, SearchPrefix, ""))
  }

  /** After `!搜索`, text that does not itself contain `!搜索` is searched for as
      written, stripped. */
  lemma SearchTextOf(rest: string)
    requires !Occurs(rest, SearchPrefix)
    ensures SearchText(SearchPrefix + rest) == Strip(rest)
  {
    assert StartsWith(SearchPrefix + rest, SearchPrefix);
    assert (SearchPrefix + rest)[|SearchPrefix|..] == rest;
    assert ReplaceAll(SearchPrefix + rest, SearchPrefix, "") == "" + ReplaceAll(rest, SearchPrefix, "");
    ReplaceAbsent(rest, SearchPrefix, "");
    assert "" + rest == rest;
  }

  /** `!搜索` followed by whitespace only leaves nothing to search for. */
  lemma SearchTextBlank(spaces: string)
    requires forall i :: 0 <= i < |spaces| ==> IsSpace(spaces[i])
    ensures SearchText(SearchPrefix + spaces) == []
  {
    assert !Occurs(spaces, SearchPrefix) by {
      forall k | 0 <= k <= |spaces| ensures !StartsWith(spaces[k..], SearchPrefix) {
        if |SearchPrefix| <= |spaces[k..]| {
          assert IsSpace(spaces[k..][0]);
        }
      }
    }
    SearchTextOf(spaces);
    BlankStrip(spaces);
  }

  lemma {:induction false} BlankStrip(spaces: string)
    requires forall i :: 0 <= i < |spaces| ==> IsSpace(spaces[i])
    ensures Strip(spaces) == []
  {
    if spaces != [] {
      BlankStrip(spaces[..|spaces| - 1]);
    }
  }

  const HelpText := "\n📖 **交易经验记录 Bot 使用指南**\n\n**记录经验**\n```\n!记录\n```\n我会引导你一步步输入信息\n\n**搜索经验**\n```\n!搜索 关键词\n!搜索 标签:逃顶\n!搜索 BTC 标签:失败\n```\n\n**查看最近记录**\n```\n!最近\n```\n\n**统计**\n```\n!统计\n```\n        "
  const RecordPrompt := "📝 **开始记录交易经验**\n\n请依次回复以下问题（你可以慢慢输入，完成后我会创建记录）：\n\n**第1步**：请输入【当时的原话】\n> 你当时真实的想法，一字不改，不要美化\n\n直接回复即可，我会等待你的输入...\n        "
  const QuickTemplate := "📝 **快速记录模板**\n\n请复制以下模板，填好后发送：\n\n```\n!记录 标题\n\n原话：\n[当时的真实想法]\n\n市场背景：\n[价格、趋势、成交量...]\n\n做得好：\n- [点1]\n- [点2]\n\n做得不好：\n- [点1]\n- [点2]\n\n核心教训：\n[最重要的教训]\n\n标签：[空格分隔，如：BTC 逃顶 失败]\n```\n        "
  const EmptyQuery := "❌ 请输入搜索关键词"

  function Searching(query: string): string {
    "🔍 正在搜索：`" + query + "`..."
  }

  /** `on_message`: the replies sent, in order, and the requests made to the
      tracker. Each command sends what its branch sends; an empty search text
      is answered with an error before any search is made. */
  method OnMessage(m: Message, t: Tracker) returns (replies: seq<string>, calls: seq<Call>)
    ensures Classify(m) == Ignored <==> replies == []
    ensures Classify(m) == Ignored ==> calls == []
    ensures Classify(m) == Help ==> replies == [HelpText] && calls == []
    ensures Classify(m) == Record ==> replies == [RecordPrompt] && calls == []
    ensures Classify(m) == QuickRecord ==> replies == [QuickTemplate] && calls == []
    ensures Classify(m) == Search && SearchText(m.content) == [] ==> replies == [EmptyQuery] && calls == []
    ensures Classify(m) == Search && SearchText(m.content) != [] ==>
      var q := SearchQuery(t.repoName, SearchText(m.content), []);
      && calls == [SearchIssues(q, OpenState)]
      && replies == [Searching(SearchText(m.content)), SearchReply(t.search(q))]
    ensures Classify(m) == Recent ==>
      replies == [RecentReply(RecentCount(m.content), t.openIssues)] && calls == [ListOpenIssues]
    ensures Classify(m) == Statistics ==> replies == [StatsReply(t.openIssues)] && calls == [ListOpenIssues]
  {
    replies, calls := [], [];
    if m.fromBot {
      return;
    }
    if m.content in HelpWords {
      replies := [HelpText];
    } else if StartsWith(m.content, RecordPrefix) {
      replies := [RecordPrompt];
    } else if StartsWith(m.content, QuickPrefix) {
      replies := [QuickTemplate];
    } else if StartsWith(m.content, SearchPrefix) {
      var query := SearchText(m.content);
      if query == [] {
        replies := [EmptyQuery];
        return;
      }
      replies := [Searching(query)];
      var q := BuildSearchQuery(t.repoName, query, []);
      calls := [SearchIssues(q, OpenState)];
      var issues := t.search(q);
      var reply := RenderSearch(issues);
      replies := replies + [reply];
    } else if StartsWith(m.content, RecentPrefix) {
      var count := RecentCount(m.content);
      calls := [ListOpenIssues];
      var reply := RenderRecent(count, t.openIssues);
      replies := [reply];
    } else if m.content == StatsWord {
      calls := [ListOpenIssues];
      var reply := RenderStats(t.openIssues);
      replies := [reply];
    }
  }
}
