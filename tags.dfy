/** `parse_tags`: a free-form tag string becomes a list of tags. */
module Tags {
  import opened Text

  /** The characters that separate tags: ASCII comma, full-width comma and whitespace. */
  predicate IsSeparator(c: char) {
    c == ',' || c == '，' || IsSpace(c)
  }

  predicate NoSeparator(t: string) {
    forall i :: 0 <= i < |t| ==> !IsSeparator(t[i])
  }

  /** The input with every separator character deleted. */
  function DropSeparators(s: string): string {
    if s == [] then []
    else if IsSeparator(s[0]) then DropSeparators(s[1..])
    else [s[0]] + DropSeparators(s[1..])
  }

  /** Both comma forms replaced by a space, full-width first, as the source does. */
  function Spaced(s: string): string {
    ReplaceAll(ReplaceAll(s, "，", " "), ",", " ")
  }

  /** `[t.strip() for t in words]` */
  function StripEach(words: seq<string>): (r: seq<string>)
    ensures |r| == |words|
  {
    seq(|words|, i requires 0 <= i < |words| => Strip(words[i]))
  }

  /** `[t for t in tags if t]` */
  function KeepNonEmpty(tags: seq<string>): (r: seq<string>)
    ensures forall t :: t in r ==> t in tags && t != []
  {
    if tags == [] then []
    else if tags[0] == [] then KeepNonEmpty(tags[1..])
    else [tags[0]] + KeepNonEmpty(tags[1..])
  }

  /** `parse_tags(tags_str)`; `None` stands for Python's `None`. Empty or absent
      input gives no tags; every tag is non-empty and free of separators. */
  function ParseTags(input: Option<string>): (tags: seq<string>)
    ensures input == None || input == Some([]) ==> tags == []
    ensures forall t :: t in tags ==> t != [] && NoSeparator(t)
  {
    if input.None? || input.value == [] then []
    else
      SpacedWords(input.value);
      KeepNonEmpty(StripEach(Split(Spaced(input.value))))
  }

  /** The strip and the filter after splitting are the identity: the words of `split()` are
      already stripped and non-empty. */
  lemma SpacedWords(s: string)
    ensures KeepNonEmpty(StripEach(Split(Spaced(s)))) == Split(Spaced(s))
    ensures forall w :: w in Split(Spaced(s)) ==> w != [] && NoSeparator(w)
  {
    var words := Split(Spaced(s));
    SplitWords(Spaced(s));
    SpacedChars(s);
    forall w, i | w in words && 0 <= i < |w| ensures !IsSeparator(w[i]) {
      var j :| 0 <= j < |Spaced(s)| && Spaced(s)[j] == w[i];
    }
    forall i | 0 <= i < |words| ensures Strip(words[i]) == words[i] {
      StripNoSpace(words[i]);
    }
    assert StripEach(words) == words;
    KeepAllNonEmpty(words);
  }

  lemma {:induction false} KeepAllNonEmpty(tags: seq<string>)
    requires forall t :: t in tags ==> t != []
    ensures KeepNonEmpty(tags) == tags
  {
    if tags != [] {
      assert tags[0] in tags;
      assert forall t :: t in tags[1..] ==> t in tags;
      KeepAllNonEmpty(tags[1..]);
    }
  }

  /** Character by character, `Spaced` turns each comma into a space and keeps
      every other character. */
  lemma SpacedChars(s: string)
    ensures |Spaced(s)| == |s|
    ensures forall i :: 0 <= i < |s| ==>
      Spaced(s)[i] == if s[i] == ',' || s[i] == '，' then ' ' else s[i]
  {
    ReplaceChar(s, '，', ' ');
    ReplaceChar(ReplaceAll(s, "，", " "), ',', ' ');
  }

  lemma {:induction false} DropMatching(t: string, s: string)
    requires |t| == |s|
    requires forall i :: 0 <= i < |s| ==> (IsSpace(t[i]) <==> IsSeparator(s[i]))
    requires forall i :: 0 <= i < |s| && !IsSeparator(s[i]) ==> t[i] == s[i]
    ensures DropSpaces(t) == DropSeparators(s)
  {
    if s != [] {
      DropMatching(t[1..], s[1..]);
    }
  }

  /** Order is preserved and nothing but separators is lost: the tags glued
      together are the input with its separators deleted. */
  lemma ParseTagsConcat(s: string)
    ensures Concat(ParseTags(Some(s))) == DropSeparators(s)
  {
    if s != [] {
      SpacedWords(s);
      SplitConcat(Spaced(s));
      SpacedChars(s);
      DropMatching(Spaced(s), s);
    }
  }

  /** An input made of separators only yields no tags. */
  lemma OnlySeparators(s: string)
    requires forall i :: 0 <= i < |s| ==> IsSeparator(s[i])
    ensures ParseTags(Some(s)) == []
  {
    ParseTagsConcat(s);
    AllSeparatorsDropped(s);
    NonEmptyConcat(ParseTags(Some(s)));
  }

  lemma NonEmptyConcat(tags: seq<string>)
    requires forall t :: t in tags ==> t != []
    ensures tags != [] ==> Concat(tags) != []
  {
    if tags != [] {
      assert tags[0] in tags;
    }
  }

  lemma {:induction false} AllSeparatorsDropped(s: string)
    requires forall i :: 0 <= i < |s| ==> IsSeparator(s[i])
    ensures DropSeparators(s) == []
  {
    if s != [] {
      AllSeparatorsDropped(s[1..]);
    }
  }

  /** A separator splits tags: the tags of two strings joined by a separator
      are the tags of the first followed by the tags of the second. */
  lemma SeparatorSplits(a: string, c: char, b: string)
    requires IsSeparator(c)
    ensures ParseTags(Some(a + [c] + b)) == ParseTags(Some(a)) + ParseTags(Some(b))
  {
    var s := a + [c] + b;
    var d := if c == ',' || c == '，' then ' ' else c;
    SpacedAppend(a, c, b);
    SplitAround(Spaced(a), d, Spaced(b));
    ParseTagsSplit(s);
    ParseTagsSplit(a);
    ParseTagsSplit(b);
  }

  /** `parse_tags` is `split()` of the input with its commas made spaces. */
  lemma ParseTagsSplit(s: string)
    ensures ParseTags(Some(s)) == Split(Spaced(s))
  {
    if s != [] {
      SpacedWords(s);
    } else {
      SpacedChars(s);
    }
  }

  /** `Spaced` works character by character, so it distributes over joining. */
  lemma SpacedAppend(a: string, c: char, b: string)
    ensures Spaced(a + [c] + b)
         == Spaced(a) + [if c == ',' || c == '，' then ' ' else c] + Spaced(b)
  {
    var s := a + [c] + b;
    SpacedChars(s);
    SpacedChars(a);
    SpacedChars(b);
    var r := Spaced(a) + [if c == ',' || c == '，' then ' ' else c] + Spaced(b);
    assert |Spaced(s)| == |r|;
    forall i | 0 <= i < |s| ensures Spaced(s)[i] == r[i] {
      if i < |a| {
        assert s[i] == a[i];
      } else if i > |a| {
        assert s[i] == b[i - |a| - 1];
      }
    }
  }

  /** Tags listed with `', '.join`, as the replies show an issue's labels,
      parse back to the same tags. */
  lemma {:induction false} JoinedTags(tags: seq<string>)
    requires forall t :: t in tags ==> t != [] && NoSeparator(t)
    ensures ParseTags(Some(Join(tags, ", "))) == tags
    decreases |tags|
  {
    if |tags| == 1 {
      assert tags[0] in tags;
      SingleTag(tags[0]);
    } else if |tags| > 1 {
      assert tags[0] in tags;
      assert forall t :: t in tags[1..] ==> t in tags;
      JoinedTags(tags[1..]);
      JoinStep(tags[0], Join(tags[1..], ", "), tags[1..]);
      assert [tags[0]] + tags[1..] == tags;
    }
  }

  /** One step of the join: a tag, `", "` and the rest parse to that tag
      followed by the rest's tags. */
  lemma JoinStep(head: string, rest: string, tail: seq<string>)
    requires head != [] && NoSeparator(head)
    requires ParseTags(Some(rest)) == tail
    ensures ParseTags(Some(head + ", " + rest)) == [head] + tail
  {
    SingleTag(head);
    CommaSpace(head, rest);
    SeparatorSplits([], ' ', rest);
    SeparatorSplits(head, ',', [' '] + rest);
  }

  lemma CommaSpace(a: string, b: string)
    ensures a + ", " + b == a + [','] + ([' '] + b)
    ensures [] + [' '] + b == [' '] + b
  {
    assert ", " == [','] + [' '];
  }

  /** A non-empty input without separators is one tag. */
  lemma SingleTag(s: string)
    requires s != [] && NoSeparator(s)
    ensures ParseTags(Some(s)) == [s]
  {
    SpacedChars(s);
    assert Spaced(s) == s;
    SpacedWords(s);
    var n := WordLength(s);
    assert n == |s|;
    assert s[..n] == s && s[n..] == [];
  }
}
