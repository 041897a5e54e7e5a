/** Models of the Python `str` built-ins the bot relies on: `isspace`, `split()`,
    `strip()`, `replace`, `join`, `isdigit`/`int`, `str` of a number and slicing. */
module Text {

  datatype Option<T> = None | Some(value: T)

  /** The characters for which Python's `str.isspace()` holds; `split()` and
      `strip()` without arguments split and strip on exactly these. */
  predicate IsSpace(c: char) {
    || c == ' '
    || ('\U{9}' <= c <= '\U{D}')
    || ('\U{1C}' <= c <= '\U{1F}')
    || c == '\U{85}' || c == '\U{A0}' || c == '\U{1680}'
    || ('\U{2000}' <= c <= '\U{200A}')
    || c == '\U{2028}' || c == '\U{2029}' || c == '\U{202F}' || c == '\U{205F}'
    || c == '\U{3000}'
  }

  predicate NoSpace(s: string) {
    forall i :: 0 <= i < |s| ==> !IsSpace(s[i])
  }

  /** The characters of `s` that are not whitespace, in order. */
  function DropSpaces(s: string): (r: string)
    ensures NoSpace(r)
  {
    if s == [] then []
    else if IsSpace(s[0]) then DropSpaces(s[1..])
    else [s[0]] + DropSpaces(s[1..])
  }

  /** Regrouping a concatenation of three sequences. */
  lemma AppendAssoc<T>(a: seq<T>, b: seq<T>, c: seq<T>)
    ensures a + b + c == a + (b + c)
  {
  }

  /** A non-empty sequence is its front followed by its last element. */
  lemma FrontLast<T>(s: seq<T>)
    requires s != []
    ensures s == s[..|s| - 1] + [s[|s| - 1]]
  {
  }

  /** Concatenation of a list of strings (`''.join(parts)`). */
  function Concat(parts: seq<string>): string {
    if parts == [] then [] else parts[0] + Concat(parts[1..])
  }

  /** `sep.join(parts)`. */
  function Join(parts: seq<string>, sep: string): string {
    if parts == [] then []
    else if |parts| == 1 then parts[0]
    else parts[0] + sep + Join(parts[1..], sep)
  }

  /** Length of the longest whitespace-free prefix of `s`. */
  function WordLength(s: string): (n: nat)
    ensures n <= |s|
    ensures forall k :: 0 <= k < n ==> !IsSpace(s[k])
    ensures n < |s| ==> IsSpace(s[n])
  {
    if s == [] || IsSpace(s[0]) then 0 else 1 + WordLength(s[1..])
  }

  /** `s.split()`: the maximal runs of non-whitespace characters, in order. */
  function Split(s: string): (words: seq<string>)
    decreases |s|
  {
    if s == [] then []
    else if IsSpace(s[0]) then Split(s[1..])
    else
      var n := WordLength(s);
      [s[..n]] + Split(s[n..])
  }

  /** Every word `split()` returns is non-empty, holds no whitespace and is made
      of characters of the input. */
  lemma {:induction false} SplitWords(s: string)
    ensures forall w :: w in Split(s) ==> w != [] && NoSpace(w)
    ensures forall w, i :: w in Split(s) && 0 <= i < |w| ==> w[i] in s
    decreases |s|
  {
    if s == [] {
    } else if IsSpace(s[0]) {
      SplitWords(s[1..]);
      assert forall c :: c in s[1..] ==> c in s;
    } else {
      var n := WordLength(s);
      SplitWords(s[n..]);
      assert forall c :: c in s[n..] ==> c in s;
      assert forall i :: 0 <= i < n ==> s[..n][i] in s;
    }
  }

  /** Gluing the words of `split()` back together gives the input with its
      whitespace removed: nothing is lost and the order is kept. */
  lemma {:induction false} SplitConcat(s: string)
    ensures Concat(Split(s)) == DropSpaces(s)
    decreases |s|
  {
    if s == [] {
    } else if IsSpace(s[0]) {
      SplitConcat(s[1..]);
    } else {
      var n := WordLength(s);
      SplitConcat(s[n..]);
      DropSpacesOfWord(s, n);
      assert s[..n] + s[n..] == s;
    }
  }

  lemma {:induction false} DropSpacesOfWord(s: string, n: nat)
    requires n <= |s|
    requires forall k :: 0 <= k < n ==> !IsSpace(s[k])
    ensures DropSpaces(s) == s[..n] + DropSpaces(s[n..])
    decreases n
  {
    if n > 0 {
      DropSpacesOfWord(s[1..], n - 1);
      assert s[1..][n - 1..] == s[n..];
      assert [s[0]] + s[1..][..n - 1] == s[..n];
    }
  }

  /** A word that ends inside `x`, or at its end before whitespace, is the
      first word of `x` followed by anything of that kind. */
  lemma {:induction false} WordLengthAppend(x: string, r: string)
    requires WordLength(x) < |x| || (r != [] && IsSpace(r[0]))
    ensures WordLength(x + r) == WordLength(x)
    decreases |x|
  {
    if x != [] && !IsSpace(x[0]) {
      assert (x + r)[1..] == x[1..] + r;
      WordLengthAppend(x[1..], r);
    }
  }

  /** A whitespace character separates words: `split()` of two strings joined
      by one is the words of the first followed by the words of the second. */
  lemma SplitAround(x: string, c: char, y: string)
    requires IsSpace(c)
    ensures Split(x + [c] + y) == Split(x) + Split(y)
  {
    AppendAssoc(x, [c], y);
    SplitBefore(x, [c] + y);
    assert ([c] + y)[1..] == y;
  }

  /** Text that begins with whitespace starts a new word. */
  lemma {:induction false} SplitBefore(x: string, r: string)
    requires r == [] || IsSpace(r[0])
    ensures Split(x + r) == Split(x) + Split(r)
    decreases |x|
  {
    if r == [] {
      assert x + r == x;
    } else if x == [] {
      assert x + r == r;
    } else if IsSpace(x[0]) {
      assert (x + r)[1..] == x[1..] + r;
      SplitBefore(x[1..], r);
    } else {
      var n := WordLength(x);
      WordLengthAppend(x, r);
      assert (x + r)[..n] == x[..n];
      assert (x + r)[n..] == x[n..] + r;
      SplitBefore(x[n..], r);
    }
  }

  /** `s.lstrip()` */
  function TrimStart(s: string): (r: string)
    ensures r == [] || !IsSpace(r[0])
  {
    if s != [] && IsSpace(s[0]) then TrimStart(s[1..]) else s
  }

  /** `s.rstrip()` */
  function TrimEnd(s: string): (r: string)
    ensures r == [] || !IsSpace(r[|r| - 1])
  {
    if s != [] && IsSpace(s[|s| - 1]) then TrimEnd(s[..|s| - 1]) else s
  }

  /** `s.strip()` */
  function Strip(s: string): string {
    TrimStart(TrimEnd(s))
  }

  /** What `strip()` keeps is a contiguous piece of its input: everything
      before it and after it is whitespace, and when it is not empty it begins
      and ends with a character that is not. */
  lemma {:induction false} StripSlice(s: string) returns (a: nat, b: nat)
    ensures a <= b <= |s| && Strip(s) == s[a..b]
    ensures forall i :: 0 <= i < a ==> IsSpace(s[i])
    ensures forall i :: b <= i < |s| ==> IsSpace(s[i])
    ensures a < b ==> !IsSpace(s[a]) && !IsSpace(s[b - 1])
  {
    b := TrimEndLength(s);
    a := TrimStartOfPrefix(s, b);
  }

  lemma TrimStartOfPrefix(s: string, b: nat) returns (a: nat)
    requires b <= |s|
    ensures a <= b && TrimStart(s[..b]) == s[a..b]
    ensures forall i :: 0 <= i < a ==> IsSpace(s[i])
    ensures a < b ==> !IsSpace(s[a])
  {
    var t := s[..b];
    a := TrimStartLength(t);
    assert t[a..] == s[a..b];
    assert forall i :: 0 <= i < a ==> t[i] == s[i];
  }

  lemma {:induction false} TrimEndLength(s: string) returns (n: nat)
    ensures n <= |s| && TrimEnd(s) == s[..n]
    ensures forall i :: n <= i < |s| ==> IsSpace(s[i])
    ensures 0 < n ==> !IsSpace(s[n - 1])
    decreases |s|
  {
    if s != [] && IsSpace(s[|s| - 1]) {
      n := TrimEndLength(s[..|s| - 1]);
      assert s[..|s| - 1][..n] == s[..n];
    } else {
      n := |s|;
    }
  }

  lemma {:induction false} TrimStartLength(s: string) returns (n: nat)
    ensures n <= |s| && TrimStart(s) == s[n..]
    ensures forall i :: 0 <= i < n ==> IsSpace(s[i])
    ensures n < |s| ==> !IsSpace(s[n])
    decreases |s|
  {
    if s != [] && IsSpace(s[0]) {
      var m := TrimStartLength(s[1..]);
      n := m + 1;
      assert s[1..][m..] == s[n..];
    } else {
      n := 0;
    }
  }

  /** `strip()` removes exactly the whitespace around the text: whitespace,
      then text that is empty or begins and ends with a non-whitespace
      character, then whitespace, strips to that text. */
  lemma StripExact(x: string, m: string, y: string)
    requires forall i :: 0 <= i < |x| ==> IsSpace(x[i])
    requires forall i :: 0 <= i < |y| ==> IsSpace(y[i])
    requires m != [] ==> !IsSpace(m[0]) && !IsSpace(m[|m| - 1])
    ensures Strip(x + m + y) == m
  {
    var s := x + m + y;
    var a, b := StripSlice(s);
    if m == [] {
      assert forall i :: 0 <= i < |s| ==> IsSpace(s[i]);
    } else {
      assert s[|x|] == m[0];
      assert s[|x| + |m| - 1] == m[|m| - 1];
      assert s[|x|..|x| + |m|] == m;
    }
  }

  /** Stripping a string without whitespace leaves it as it is. */
  lemma StripNoSpace(s: string)
    requires NoSpace(s)
    ensures Strip(s) == s
  {
  }

  /** A whitespace character glued to either end does not change `strip()`. */
  lemma {:induction false} StripPadded(c: char, s: string, d: char)
    requires IsSpace(c) && IsSpace(d)
    ensures Strip([c] + s + [d]) == Strip(s)
  {
    assert ([c] + s + [d])[..|[c] + s + [d]| - 1] == [c] + s;
    TrimEndSpaceFirst(c, s);
  }

  lemma {:induction false} TrimEndSpaceFirst(c: char, s: string)
    requires IsSpace(c)
    ensures TrimStart(TrimEnd([c] + s)) == TrimStart(TrimEnd(s))
    decreases |s|
  {
    if s != [] && IsSpace(s[|s| - 1]) {
      assert ([c] + s)[..|s|] == [c] + s[..|s| - 1];
      TrimEndSpaceFirst(c, s[..|s| - 1]);
    } else {
      assert ([c] + s)[1..] == s;
    }
  }

  /** `s.startswith(p)` */
  predicate StartsWith(s: string, p: string) {
    p <= s
  }

  /** `s.replace(pat, rep)`: every non-overlapping occurrence of `pat`, scanned
      left to right, is replaced by `rep`. */
  function ReplaceAll(s: string, pat: string, rep: string): string
    requires pat != []
    decreases |s|
  {
    if s == [] then []
    else if StartsWith(s, pat) then rep + ReplaceAll(s[|pat|..], pat, rep)
    else [s[0]] + ReplaceAll(s[1..], pat, rep)
  }

  /** The first position at or after `from` where `pat` starts, if any. */
  function Find(s: string, pat: string, from: nat): (r: Option<nat>)
    requires from <= |s|
    ensures r.Some? ==> from <= r.value <= |s| && StartsWith(s[r.value..], pat)
    ensures r.Some? ==> forall k :: from <= k < r.value ==> !StartsWith(s[k..], pat)
    ensures r.None? ==> forall k :: from <= k <= |s| ==> !StartsWith(s[k..], pat)
    decreases |s| - from
  {
    if StartsWith(s[from..], pat) then Some(from)
    else if from == |s| then None
    else Find(s, pat, from + 1)
  }

  /** `pat` occurs in `s` somewhere. */
  predicate Occurs(s: string, pat: string) {
    exists k :: 0 <= k <= |s| && StartsWith(s[k..], pat)
  }

  /** Replacing a string that does not occur changes nothing. */
  lemma {:induction false} ReplaceAbsent(s: string, pat: string, rep: string)
    requires pat != []
    requires !Occurs(s, pat)
    ensures ReplaceAll(s, pat, rep) == s
    decreases |s|
  {
    if s != [] {
      assert s[0..] == s;
      assert !StartsWith(s, pat);
      forall k | 0 <= k <= |s[1..]| ensures !StartsWith(s[1..][k..], pat) {
        assert s[1..][k..] == s[k + 1..];
      }
      ReplaceAbsent(s[1..], pat, rep);
    }
  }

  /** Replacing one character by another maps the string character by character. */
  lemma {:induction false} ReplaceChar(s: string, a: char, b: char)
    ensures |ReplaceAll(s, [a], [b])| == |s|
    ensures forall i :: 0 <= i < |s| ==>
      ReplaceAll(s, [a], [b])[i] == if s[i] == a then b else s[i]
    decreases |s|
  {
    if s != [] {
      ReplaceChar(s[1..], a, b);
      assert StartsWith(s, [a]) <==> s[0] == a;
    }
  }

  /** `s[:n]` */
  function Take(s: string, n: nat): (r: string)
    ensures |r| <= n && StartsWith(s, r)
    ensures |s| <= n ==> r == s
    ensures |s| > n ==> |r| == n
  {
    if |s| <= n then s else s[..n]
  }

  predicate IsDigit(c: char) {
    '0' <= c <= '9'
  }

  /** `s.isdigit()` for ASCII digits: non-empty and all digits. */
  predicate IsDecimal(s: string) {
    s != [] && forall i :: 0 <= i < |s| ==> IsDigit(s[i])
  }

  /** `int(s)` for a string of ASCII digits. */
  function DecimalValue(s: string): nat
    requires forall i :: 0 <= i < |s| ==> IsDigit(s[i])
  {
    if s == [] then 0
    else
      assert IsDigit(s[|s| - 1]);
      10 * DecimalValue(s[..|s| - 1]) + (s[|s| - 1] as int - '0' as int)
  }

  /** `str(n)` */
  function NatToString(n: nat): (r: string)
    ensures IsDecimal(r)
  {
    if n < 10 then ["0123456789"[n]]
    else NatToString(n / 10) + ["0123456789"[n % 10]]
  }

  /** `int(str(n)) == n` */
  lemma {:induction false} DecimalRoundTrip(n: nat)
    ensures DecimalValue(NatToString(n)) == n
  {
    var s := NatToString(n);
    if n >= 10 {
      DecimalRoundTrip(n / 10);
      assert s[..|s| - 1] == NatToString(n / 10);
    }
  }
}
