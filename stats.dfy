/** The `!统计` command: the number of open issues, how often each label is
    used, and the labels ranked by use. */
module Stats {
  import opened Text
  import opened Tracker

  /** Every label of every issue, issue by issue, in order. */
  function AllLabels(issues: seq<Issue>): seq<string> {
    if issues == [] then [] else AllLabels(issues[..|issues| - 1]) + issues[|issues| - 1].labels
  }

  /** How many times a label is used across all issues. */
  function Occurrences(issues: seq<Issue>, name: string): nat {
    multiset(AllLabels(issues))[name]
  }

  /** The label counts the command reports: one entry per label used, holding
      its number of uses. */
  function LabelCounts(issues: seq<Issue>): map<string, nat> {
    Tally(AllLabels(issues))
  }

  /** Each name of `seen` with its number of occurrences in `seen`. */
  function Tally(seen: seq<string>): map<string, nat> {
    map name | name in seen :: multiset(seen)[name]
  }

  predicate NoDuplicates(s: seq<string>) {
    forall i, j :: 0 <= i < j < |s| ==> s[i] != s[j]
  }

  /** The position of the first occurrence of `x` in `s`. */
  function FirstIndex(s: seq<string>, x: string): (i: nat)
    requires x in s
    ensures i < |s| && s[i] == x
    ensures forall k :: 0 <= k < i ==> s[k] != x
  {
    if s[0] == x then 0 else 1 + FirstIndex(s[1..], x)
  }

  /** Appending an element moves no first occurrence of the elements before it. */
  lemma FirstIndexAppend(init: seq<string>, last: string)
    ensures forall x :: x in init ==> FirstIndex(init + [last], x) == FirstIndex(init, x)
    ensures last !in init ==> FirstIndex(init + [last], last) == |init|
  {
    var s := init + [last];
    forall x | x in init ensures FirstIndex(s, x) == FirstIndex(init, x) {
      assert s[FirstIndex(init, x)] == x;
    }
  }

  /** The distinct elements of `s` in order of first occurrence: the order in
      which a Python dict receives its keys. */
  function Distinct(s: seq<string>): (d: seq<string>)
    ensures forall x :: x in d <==> x in s
    ensures NoDuplicates(d)
    ensures forall i, j :: 0 <= i < j < |d| ==> FirstIndex(s, d[i]) < FirstIndex(s, d[j])
  {
    if s == [] then []
    else
      var init, last := s[..|s| - 1], s[|s| - 1];
      var d := Distinct(init);
      FrontLast(s);
      FirstIndexAppend(init, last);
      if last in init then d
      else d + [last]
  }

  /** The state of the tally after the labels `seen`: `counts` is the dict and
      `keys` its key order. */
  predicate Tallied(seen: seq<string>, counts: map<string, nat>, keys: seq<string>) {
    keys == Distinct(seen) && counts == Tally(seen)
  }

  /** The `!统计` loops: count the issues and, issue by issue, tally their
      labels. */
  method TallyLabels(issues: seq<Issue>) returns (total: nat, counts: map<string, nat>, keys: seq<string>)
    ensures total == |issues|
    ensures counts == LabelCounts(issues)
    ensures keys == Distinct(AllLabels(issues))
  {
    total, counts, keys := 0, map[], [];
    var i := 0;
    while i < |issues|
      invariant 0 <= i <= |issues| && total == i
      invariant Tallied(AllLabels(issues[..i]), counts, keys)
    {
      assert issues[..i + 1][..i] == issues[..i];
      total := total + 1;
      counts, keys := TallyIssue(AllLabels(issues[..i]), issues[i].labels, counts, keys);
      i := i + 1;
    }
    assert issues[..|issues|] == issues;
  }

  /** The inner loop over one issue's labels: bump each label's entry in the
      dict, creating it at the end of the key order on first use. */
  method TallyIssue(ghost before: seq<string>, labels: seq<string>, counts0: map<string, nat>, keys0: seq<string>)
    returns (counts: map<string, nat>, keys: seq<string>)
    requires Tallied(before, counts0, keys0)
    ensures Tallied(before + labels, counts, keys)
  {
    counts, keys := counts0, keys0;
    var j := 0;
    PrefixAppend(before, labels, 0);
    while j < |labels|
      invariant 0 <= j <= |labels|
      invariant Tallied(before + labels[..j], counts, keys)
    {
      var name := labels[j];
      PrefixAppend(before, labels, j + 1);
      TallyStep(before + labels[..j], name, counts, keys);
      if name !in counts {
        keys := keys + [name];
      }
      counts := counts[name := (if name in counts then counts[name] else 0) + 1];
      j := j + 1;
    }
    PrefixAppend(before, labels, |labels|);
  }

  /** The labels met so far, one more at a time. */
  lemma PrefixAppend(before: seq<string>, labels: seq<string>, j: nat)
    requires j <= |labels|
    ensures j == 0 ==> before + labels[..j] == before
    ensures j > 0 ==> before + labels[..j] == (before + labels[..j - 1]) + [labels[j - 1]]
    ensures j == |labels| ==> before + labels[..j] == before + labels
  {
    if j > 0 {
      assert labels[..j] == labels[..j - 1] + [labels[j - 1]];
    }
  }

  /** One label more: its entry grows by one, and a label not seen before is
      added at the end of the key order. */
  lemma TallyStep(seen: seq<string>, name: string, counts: map<string, nat>, keys: seq<string>)
    requires Tallied(seen, counts, keys)
    ensures Tallied(seen + [name], counts[name := (if name in counts then counts[name] else 0) + 1],
                    if name in counts then keys else keys + [name])
  {
    DistinctAppend(seen, name);
    TallyAppend(seen, name);
  }

  /** A label met for the first time goes to the end of the key order; one met
      before changes nothing. */
  lemma DistinctAppend(seen: seq<string>, name: string)
    ensures Distinct(seen + [name]) == if name in seen then Distinct(seen) else Distinct(seen) + [name]
  {
    var s := seen + [name];
    assert s[..|s| - 1] == seen;
  }

  lemma TallyAppend(seen: seq<string>, name: string)
    ensures Tally(seen + [name])
         == Tally(seen)[name := (if name in Tally(seen) then Tally(seen)[name] else 0) + 1]
  {
    var s := seen + [name];
    var before := Tally(seen);
    var after := before[name := (if name in before then before[name] else 0) + 1];
    assert multiset(s) == multiset(seen) + multiset{name};
    assert forall x :: x in s <==> x in seen || x == name;
    assert Tally(s).Keys == after.Keys;
    forall x | x in after
      ensures Tally(s)[x] == after[x]
    {
    }
  }

  /** A label and its count, as `label_counts.items()` gives them. */
  type Item = (string, nat)

  /** The pairs of the dict in key order. */
  function Items(counts: map<string, nat>, keys: seq<string>): seq<Item>
    requires forall k :: k in keys ==> k in counts
  {
    if keys == [] then []
    else
      assert forall k :: k in keys[..|keys| - 1] ==> k in keys;
      Items(counts, keys[..|keys| - 1]) + [(keys[|keys| - 1], counts[keys[|keys| - 1]])]
  }

  /** `sorted(items, key=count, reverse=True)` inserts an item after every item
      with at least its count, so that ties keep their order. */
  function InsertByCount(sorted: seq<Item>, x: Item): seq<Item> {
    if sorted == [] then [x]
    else if sorted[0].1 >= x.1 then [sorted[0]] + InsertByCount(sorted[1..], x)
    else [x] + sorted
  }

  /** Python's stable sort by count, largest first. */
  function SortByCount(items: seq<Item>): seq<Item> {
    if items == [] then []
    else InsertByCount(SortByCount(items[..|items| - 1]), items[|items| - 1])
  }

  predicate NonIncreasing(s: seq<Item>) {
    forall i, j :: 0 <= i < j < |s| ==> s[i].1 >= s[j].1
  }

  /** The items with a given count, in order. */
  function WithCount(s: seq<Item>, c: nat): seq<Item> {
    if s == [] then []
    else (if s[0].1 == c then [s[0]] else []) + WithCount(s[1..], c)
  }

  lemma {:induction false} InsertSorted(sorted: seq<Item>, x: Item)
    requires NonIncreasing(sorted)
    ensures NonIncreasing(InsertByCount(sorted, x))
  {
    if sorted != [] && sorted[0].1 >= x.1 {
      var rest := sorted[1..];
      assert NonIncreasing(rest);
      InsertSorted(rest, x);
      InsertPerm(rest, x);
      var r := InsertByCount(rest, x);
      forall y | y in r ensures sorted[0].1 >= y.1 {
        assert y in multiset(r);
        if y != x {
          assert y in multiset(rest);
          var k :| 0 <= k < |rest| && rest[k] == y;
          assert sorted[k + 1] == y;
        }
      }
      OrderedCons(sorted[0], r);
    }
  }

  lemma OrderedCons(y: Item, r: seq<Item>)
    requires NonIncreasing(r)
    requires forall z :: z in r ==> y.1 >= z.1
    ensures NonIncreasing([y] + r)
  {
    forall i, j | 0 <= i < j < |[y] + r| ensures ([y] + r)[i].1 >= ([y] + r)[j].1 {
      if i == 0 {
        assert ([y] + r)[j] == r[j - 1];
      }
    }
  }

  /** Insertion adds the item and keeps every other. */
  lemma {:induction false} InsertPerm(sorted: seq<Item>, x: Item)
    ensures multiset(InsertByCount(sorted, x)) == multiset(sorted) + multiset{x}
  {
    if sorted != [] && sorted[0].1 >= x.1 {
      var rest := sorted[1..];
      InsertPerm(rest, x);
      assert sorted == [sorted[0]] + rest;
      assert multiset(sorted) == multiset{sorted[0]} + multiset(rest);
      assert multiset(InsertByCount(sorted, x)) == multiset{sorted[0]} + multiset(InsertByCount(rest, x));
    }
  }

  /** The sort orders by count, largest first, and only moves items. */
  lemma {:induction false} SortByCountSorted(items: seq<Item>)
    ensures NonIncreasing(SortByCount(items))
    ensures multiset(SortByCount(items)) == multiset(items)
  {
    if items != [] {
      var init := items[..|items| - 1];
      SortByCountSorted(init);
      InsertSorted(SortByCount(init), items[|items| - 1]);
      InsertPerm(SortByCount(init), items[|items| - 1]);
      FrontLast(items);
    }
  }

  lemma {:induction false} WithCountNone(s: seq<Item>, c: nat)
    requires forall i :: 0 <= i < |s| ==> s[i].1 != c
    ensures WithCount(s, c) == []
  {
    if s != [] {
      WithCountNone(s[1..], c);
    }
  }

  lemma {:induction false} WithCountAppend(s: seq<Item>, t: seq<Item>, c: nat)
    ensures WithCount(s + t, c) == WithCount(s, c) + WithCount(t, c)
  {
    if s == [] {
      assert s + t == t;
    } else {
      assert (s + t)[1..] == s[1..] + t;
      WithCountAppend(s[1..], t, c);
      AppendAssoc(if s[0].1 == c then [s[0]] else [], WithCount(s[1..], c), WithCount(t, c));
    }
  }

  lemma {:induction false} InsertKeepsTies(sorted: seq<Item>, x: Item, c: nat)
    requires NonIncreasing(sorted)
    ensures WithCount(InsertByCount(sorted, x), c)
         == if x.1 == c then WithCount(sorted, c) + [x] else WithCount(sorted, c)
  {
    if sorted == [] {
    } else if sorted[0].1 >= x.1 {
      assert NonIncreasing(sorted[1..]);
      InsertKeepsTies(sorted[1..], x, c);
    } else {
      if x.1 == c {
        WithCountNone(sorted, c);
      }
      assert ([x] + sorted)[1..] == sorted;
    }
  }

  /** The sort is stable: items with equal counts leave it in the order they
      entered it. */
  lemma {:induction false} SortByCountStable(items: seq<Item>, c: nat)
    ensures WithCount(SortByCount(items), c) == WithCount(items, c)
  {
    if items != [] {
      var init, x := items[..|items| - 1], items[|items| - 1];
      var sorted := SortByCount(init);
      assert SortByCount(items) == InsertByCount(sorted, x);
      SortByCountStable(init, c);
      SortByCountSorted(init);
      InsertKeepsTies(sorted, x, c);
      FrontLast(items);
      WithCountSnoc(init, x, c);
    }
  }

  lemma WithCountSnoc(init: seq<Item>, x: Item, c: nat)
    ensures WithCount(init + [x], c) == if x.1 == c then WithCount(init, c) + [x] else WithCount(init, c)
  {
    WithCountAppend(init, [x], c);
    assert WithCount([x], c) == (if x.1 == c then [x] else []) + WithCount([], c);
  }

  /** The label ranking `!统计` prints. */
  function Ranking(issues: seq<Issue>): seq<Item> {
    SortByCount(Items(LabelCounts(issues), Distinct(AllLabels(issues))))
  }

  /** Each pair of the dict appears once among its items, and nothing else does. */
  lemma {:induction false} ItemsOnce(counts: map<string, nat>, keys: seq<string>, p: Item)
    requires forall k :: k in keys ==> k in counts
    requires NoDuplicates(keys)
    ensures multiset(Items(counts, keys))[p] == if p.0 in keys && p.1 == counts[p.0] then 1 else 0
  {
    if keys != [] {
      var init, last := keys[..|keys| - 1], keys[|keys| - 1];
      assert forall k :: k in init ==> k in keys;
      assert NoDuplicates(init);
      ItemsOnce(counts, init, p);
      assert last !in init;
      FrontLast(keys);
      assert p.0 in keys <==> p.0 in init || p.0 == last;
      var item := (last, counts[last]);
      assert Items(counts, keys) == Items(counts, init) + [item];
      assert multiset(Items(counts, keys)) == multiset(Items(counts, init)) + multiset{item};
    }
  }

  /** The ranking lists every label used, once, with its number of uses, and
      nothing else; counts never increase down the list; and labels with equal
      counts appear in the order the labels were first met. */
  lemma RankingSound(issues: seq<Issue>, p: Item)
    ensures multiset(Ranking(issues))[p]
         == if p.0 in AllLabels(issues) && p.1 == Occurrences(issues, p.0) then 1 else 0
    ensures NonIncreasing(Ranking(issues))
  {
    var keys := Distinct(AllLabels(issues));
    var items := Items(LabelCounts(issues), keys);
    SortByCountSorted(items);
    ItemsOnce(LabelCounts(issues), keys, p);
  }

  lemma RankingTies(issues: seq<Issue>, c: nat)
    ensures WithCount(Ranking(issues), c)
         == WithCount(Items(LabelCounts(issues), Distinct(AllLabels(issues))), c)
  {
    SortByCountStable(Items(LabelCounts(issues), Distinct(AllLabels(issues))), c);
  }

  /** A ranking line. */
  function RankLine(item: Item): string {
    "- " + item.0 + ": " + NatToString(item.1) + " 条\n"
  }

  /** The lines of the first `k` ranked items. */
  function RankLines(ranking: seq<Item>, k: nat): string
    requires k <= |ranking|
  {
    if k == 0 then [] else RankLines(ranking, k - 1) + RankLine(ranking[k - 1])
  }

  function StatsHeader(total: nat): string {
    "📊 **经验统计**\n\n" + "总记录数：**" + NatToString(total) + "** 条\n\n"
  }

  /** The `!统计` reply for a number of issues and a ranking: the header, and the
      label section only when some label is used. */
  function StatsText(total: nat, ranking: seq<Item>): string {
    StatsHeader(total) + (if ranking == [] then [] else "**标签分布：**\n" + RankLines(ranking, |ranking|))
  }

  /** The reply `!统计` sends for the open issues. */
  function StatsReply(issues: seq<Issue>): string {
    StatsText(|issues|, Ranking(issues))
  }

  /** The label section appears exactly when some issue has a label. */
  lemma StatsHasLabels(issues: seq<Issue>)
    ensures Ranking(issues) == [] <==> AllLabels(issues) == []
  {
    var keys := Distinct(AllLabels(issues));
    var items := Items(LabelCounts(issues), keys);
    SortByCountSorted(items);
    ItemsLength(LabelCounts(issues), keys);
    if AllLabels(issues) != [] {
      assert AllLabels(issues)[0] in keys;
    }
    assert |Ranking(issues)| == |multiset(Ranking(issues))| == |multiset(items)| == |items|;
  }

  lemma {:induction false} ItemsLength(counts: map<string, nat>, keys: seq<string>)
    requires forall k :: k in keys ==> k in counts
    ensures |Items(counts, keys)| == |keys|
  {
    if keys != [] {
      assert forall k :: k in keys[..|keys| - 1] ==> k in keys;
      ItemsLength(counts, keys[..|keys| - 1]);
    }
  }

  /** There are label counts exactly when some issue has a label. */
  lemma CountsPresent(issues: seq<Issue>)
    ensures |LabelCounts(issues)| > 0 <==> AllLabels(issues) != []
  {
    if AllLabels(issues) != [] {
      assert AllLabels(issues)[0] in LabelCounts(issues);
      assert AllLabels(issues)[0] in LabelCounts(issues).Keys;
    } else {
      assert LabelCounts(issues) == map[];
    }
  }

  /** The `!统计` reply built as the branch does it: the tally, then, when the
      dict is not empty, the sorted items one line each. */
  method RenderStats(issues: seq<Issue>) returns (reply: string)
    ensures reply == StatsReply(issues)
  {
    var total, counts, keys := TallyLabels(issues);
    reply := StatsHeader(total);
    RankingPresent(issues);
    if |counts| > 0 {
      reply := reply + "**标签分布：**\n";
      var ranking := SortByCount(Items(counts, keys));
      reply := AppendRankLines(reply, ranking);
      AppendAssoc(StatsHeader(total), "**标签分布：**\n", RankLines(ranking, |ranking|));
    }
  }

  /** The loop over the sorted items: one line per label, in ranking order. */
  method AppendRankLines(opening: string, ranking: seq<Item>) returns (reply: string)
    ensures reply == opening + RankLines(ranking, |ranking|)
  {
    reply := opening;
    var i := 0;
    while i < |ranking|
      invariant 0 <= i <= |ranking|
      invariant reply == opening + RankLines(ranking, i)
    {
      AppendAssoc(opening, RankLines(ranking, i), RankLine(ranking[i]));
      reply := reply + RankLine(ranking[i]);
      i := i + 1;
    }
  }

  lemma RankingPresent(issues: seq<Issue>)
    ensures |LabelCounts(issues)| > 0 <==> Ranking(issues) != []
  {
    StatsHasLabels(issues);
    CountsPresent(issues);
  }
}
