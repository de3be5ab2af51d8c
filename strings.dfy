/** The JavaScript string operations the provisioning code relies on:
    `indexOf`, `replace` with a string pattern (first occurrence only),
    `split` on one character followed by `pop`, and `replaceAll` of one
    character by the empty string. Strings are `seq<char>`. */
module Strings {

  datatype Option<T> = None | Some(value: T)

  predicate HasPrefix(s: string, p: string) {
    |p| <= |s| && s[..|p|] == p
  }

  /** `pat` occurs in `text` starting at position `i`. */
  predicate OccursAt(text: string, pat: string, i: int) {
    0 <= i && i + |pat| <= |text| && text[i..i + |pat|] == pat
  }

  /** `text.indexOf(pat)`: the first position where `pat` occurs, if any. */
  function IndexOf(text: string, pat: string): (r: Option<nat>)
    ensures r.Some? ==> OccursAt(text, pat, r.value)
    ensures r.Some? ==> forall j :: 0 <= j < r.value ==> !OccursAt(text, pat, j)
    ensures r.None? ==> forall j :: !OccursAt(text, pat, j)
    decreases |text|
  {
    if |text| < |pat| then None
    else if text[..|pat|] == pat then Some(0)
    else
      assert !OccursAt(text, pat, 0);
      match IndexOf(text[1..], pat)
      case None =>
        assert forall j :: !OccursAt(text, pat, j) by {
          forall j | OccursAt(text, pat, j) ensures false {
            assert text[1..][j - 1..j - 1 + |pat|] == text[j..j + |pat|];
            assert OccursAt(text[1..], pat, j - 1);
          }
        }
        None
      case Some(i) =>
        assert text[1..][i..i + |pat|] == text[i + 1..i + 1 + |pat|];
        assert forall j :: 0 <= j < i + 1 ==> !OccursAt(text, pat, j) by {
          forall j | 0 < j < i + 1 && OccursAt(text, pat, j) ensures false {
            assert text[1..][j - 1..j - 1 + |pat|] == text[j..j + |pat|];
            assert OccursAt(text[1..], pat, j - 1);
          }
        }
        Some(i + 1)
  }

  /** `text.replace(pat, rep)` with a string pattern: only the first
      occurrence is replaced; `rep` is taken literally. */
  function ReplaceFirst(text: string, pat: string, rep: string): string {
    match IndexOf(text, pat)
    case None => text
    case Some(i) => text[..i] + rep + text[i + |pat|..]
  }

  /** Without an occurrence of the pattern the text is returned unchanged. */
  lemma ReplaceFirstAbsent(text: string, pat: string, rep: string)
    requires forall j :: !OccursAt(text, pat, j)
    ensures ReplaceFirst(text, pat, rep) == text
  {
  }

  /** When the first occurrence of `pat` in `pre + pat + post` is the one
      right after `pre`, exactly that occurrence is replaced: `pre` and
      `post` (including any later occurrences of `pat`) are kept as they are. */
  lemma ReplaceFirstAt(pre: string, pat: string, post: string, rep: string)
    requires forall j :: 0 <= j < |pre| ==> !OccursAt(pre + pat + post, pat, j)
    ensures ReplaceFirst(pre + pat + post, pat, rep) == pre + rep + post
  {
    var text := pre + pat + post;
    assert text[|pre|..|pre| + |pat|] == pat;
    assert OccursAt(text, pat, |pre|);
    var r := IndexOf(text, pat);
    assert r == Some(|pre|);
    assert text[..|pre|] == pre;
    assert text[|pre| + |pat|..] == post;
  }

  /** The parts of `s` put back together with `sep` between them. */
  function Join(parts: seq<string>, sep: char): string
    decreases |parts|
  {
    if |parts| == 0 then ""
    else if |parts| == 1 then parts[0]
    else parts[0] + [sep] + Join(parts[1..], sep)
  }

  /** `s.split(sep)` for a one-character separator: never empty, splits
      `s` into parts that join back to `s` and contain no separator. */
  function Split(s: string, sep: char): (parts: seq<string>)
    ensures |parts| >= 1
    ensures Join(parts, sep) == s
    ensures forall i :: 0 <= i < |parts| ==> sep !in parts[i]
    decreases |s|
  {
    if s == [] then [""]
    else
      var rest := Split(s[1..], sep);
      if s[0] == sep then
        assert ([""] + rest)[1..] == rest;
        assert s == [sep] + s[1..];
        [""] + rest
      else
        var parts := [[s[0]] + rest[0]] + rest[1..];
        assert parts[1..] == rest[1..];
        assert s == [s[0]] + s[1..];
        assert |rest| > 1 ==> Join(rest, sep) == rest[0] + [sep] + Join(rest[1..], sep);
        parts
  }

  /** The joined string ends with the last part. */
  lemma {:induction false} JoinEndsWithLast(parts: seq<string>, sep: char)
    requires |parts| >= 1
    ensures var last := parts[|parts| - 1];
            var s := Join(parts, sep);
            |last| <= |s| && s[|s| - |last|..] == last
    decreases |parts|
  {
    if |parts| > 1 {
      JoinEndsWithLast(parts[1..], sep);
      assert parts[1..][|parts| - 2] == parts[|parts| - 1];
    }
  }

  /** `s.split(sep).pop()`: the text after the last separator, or all of
      `s` when it has none. */
  function LastSegment(s: string, sep: char): string {
    var parts := Split(s, sep);
    parts[|parts| - 1]
  }

  /** A string that contains the separator splits into at least two parts. */
  lemma SplitAtSeparator(s: string, sep: char)
    requires sep in s
    ensures |Split(s, sep)| >= 2
  {
  }

  /** A string without the separator is its own last segment. */
  lemma {:induction false} LastSegmentWhole(w: string, sep: char)
    requires sep !in w
    ensures Split(w, sep) == [w]
    ensures LastSegment(w, sep) == w
    decreases |w|
  {
    if w != [] {
      LastSegmentWhole(w[1..], sep);
      assert [w[0]] + w[1..] == w;
    }
  }

  /** Whatever precedes the last separator, the last segment is the
      separator-free text after it. */
  lemma {:induction false} LastSegmentAfter(pre: string, w: string, sep: char)
    requires sep !in w
    ensures LastSegment(pre + [sep] + w, sep) == w
    decreases |pre|
  {
    var s := pre + [sep] + w;
    if pre == [] {
      assert s[1..] == w;
      LastSegmentWhole(w, sep);
    } else {
      assert s[1..] == pre[1..] + [sep] + w;
      LastSegmentAfter(pre[1..], w, sep);
      assert sep in s[1..] by { assert s[1..][|pre| - 1] == sep; }
      SplitAtSeparator(s[1..], sep);
    }
  }

  /** Splitting at a separator that follows a separator-free part gives
      that part, then the parts of the rest. */
  lemma {:induction false} SplitAfterPart(a: string, b: string, sep: char)
    requires sep !in a
    ensures Split(a + [sep] + b, sep) == [a] + Split(b, sep)
    decreases |a|
  {
    var s := a + [sep] + b;
    if a == [] {
      assert s[1..] == b;
    } else {
      assert s[1..] == a[1..] + [sep] + b;
      SplitAfterPart(a[1..], b, sep);
      assert [a[0]] + a[1..] == a;
    }
  }

  /** `split` undoes `join` when no part holds the separator. */
  lemma {:induction false} SplitJoin(parts: seq<string>, sep: char)
    requires |parts| >= 1
    requires forall i :: 0 <= i < |parts| ==> sep !in parts[i]
    ensures Split(Join(parts, sep), sep) == parts
    decreases |parts|
  {
    if |parts| == 1 {
      LastSegmentWhole(parts[0], sep);
    } else {
      SplitJoin(parts[1..], sep);
      SplitAfterPart(parts[0], Join(parts[1..], sep), sep);
      assert [parts[0]] + parts[1..] == parts;
    }
  }

  /** The text before the last `sep` of `s`, or None when `s` has none. */
  function BeforeLast(s: string, sep: char): (r: Option<string>)
    ensures r.None? <==> sep !in s
    ensures r.Some? ==> |r.value| < |s| && s[..|r.value|] == r.value && s[|r.value|] == sep
    ensures r.Some? ==> sep !in s[|r.value| + 1..]
    decreases |s|
  {
    if s == [] then None
    else if s[|s| - 1] == sep then Some(s[..|s| - 1])
    else
      var init := s[..|s| - 1];
      assert s == init + [s[|s| - 1]];
      match BeforeLast(init, sep)
      case None => None
      case Some(p) =>
        assert s[..|p|] == init[..|p|];
        assert s[|p| + 1..] == init[|p| + 1..] + [s[|s| - 1]];
        Some(p)
  }

  /** The text before the last separator, the separator and the last
      segment make up the whole string. */
  lemma BeforeLastSplits(s: string, sep: char)
    requires sep in s
    ensures s == BeforeLast(s, sep).value + [sep] + LastSegment(s, sep)
  {
    var p := BeforeLast(s, sep).value;
    var w := s[|p| + 1..];
    assert s == p + [sep] + w;
    LastSegmentAfter(p, w, sep);
  }

  /** `s.replaceAll(c, '')`: every `c` removed, all other characters kept
      in order. */
  function RemoveAll(s: string, c: char): (r: string)
    ensures c !in r
    ensures |r| <= |s|
    ensures c !in s ==> r == s
    decreases |s|
  {
    if s == [] then []
    else
      assert s == [s[0]] + s[1..];
      (if s[0] == c then [] else [s[0]]) + RemoveAll(s[1..], c)
  }

  /** Removing a character distributes over concatenation. */
  lemma {:induction false} RemoveAllAppend(a: string, b: string, c: char)
    ensures RemoveAll(a + b, c) == RemoveAll(a, c) + RemoveAll(b, c)
    decreases |a|
  {
    if a != [] {
      assert (a + b)[1..] == a[1..] + b;
      RemoveAllAppend(a[1..], b, c);
    } else {
      assert a + b == b;
    }
  }
}
