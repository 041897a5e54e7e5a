/** The issue tracker as the bot sees it: issue records and the query string
    `search_issues` sends to the tracker's search. */
module Tracker {
  import opened Text

  /** An issue as the replies use it: its title, its label names, its creation
      date (already formatted as `%Y-%m-%d`), its body and its web address. */
  datatype Issue = Issue(title: string, labels: seq<string>, createdDate: string, body: string, url: string)

  /** The repository the bot is configured with, what the tracker's search
      returns for a query string, and the open issues, newest first. */
  datatype Tracker = Tracker(repoName: string, search: string -> seq<Issue>, openIssues: seq<Issue>)

  /** The query qualifier that restricts a search to one label. */
  function LabelQualifier(name: string): string {
    " label:" + name
  }

  /** The qualifiers of a label list, in order. */
  function LabelQualifiers(labels: seq<string>): string {
    if labels == [] then [] else LabelQualifiers(labels[..|labels| - 1]) + LabelQualifier(labels[|labels| - 1])
  }

  /** The query `search_issues(query, labels)` hands to the tracker. */
  function SearchQuery(repoName: string, query: string, labels: seq<string>): string {
    "repo:" + repoName + " " + query + LabelQualifiers(labels)
  }

  /** `search_issues`' query building: the repository qualifier, the user's
      query, then one label qualifier per label, in order. */
  method BuildSearchQuery(repoName: string, query: string, labels: seq<string>) returns (q: string)
    ensures q == SearchQuery(repoName, query, labels)
  {
    q := "repo:" + repoName + " " + query;
    var i := 0;
    while i < |labels|
      invariant 0 <= i <= |labels|
      invariant q == "repo:" + repoName + " " + query + LabelQualifiers(labels[..i])
    {
      assert labels[..i + 1][..i] == labels[..i];
      q := q + " label:" + labels[i];
      i := i + 1;
    }
    assert labels[..|labels|] == labels;
  }

  /** Without labels the query is the repository qualifier and the user's text;
      the user's text always follows the repository qualifier unchanged, and each
      label adds its qualifier at the end. */
  lemma {:induction false} SearchQueryShape(repoName: string, query: string, labels: seq<string>)
    ensures labels == [] ==> SearchQuery(repoName, query, labels) == "repo:" + repoName + " " + query
    ensures StartsWith(SearchQuery(repoName, query, labels), "repo:" + repoName + " " + query)
    ensures |SearchQuery(repoName, query, labels)|
            == 6 + |repoName| + |query| + 7 * |labels| + LabelsLength(labels)
  {
    QualifiersLength(labels);
    assert SearchQuery(repoName, query, labels)
        == ("repo:" + repoName + " " + query) + LabelQualifiers(labels);
  }

  /** The total length of the label names. */
  function LabelsLength(labels: seq<string>): nat {
    if labels == [] then 0 else LabelsLength(labels[..|labels| - 1]) + |labels[|labels| - 1]|
  }

  lemma {:induction false} QualifiersLength(labels: seq<string>)
    ensures |LabelQualifiers(labels)| == 7 * |labels| + LabelsLength(labels)
  {
    if labels != [] {
      QualifiersLength(labels[..|labels| - 1]);
    }
  }
}
