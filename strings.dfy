/**
 * The string operations the fetcher applies to resource names and request
 * paths: `split` on a one-character separator, `join`, and `substr(start)`.
 */
module Strings {

  /** `parts.join([sep])`. */
  function Join(parts: seq<string>, sep: char): string
  {
    if |parts| == 0 then ""
    else if |parts| == 1 then parts[0]
    else parts[0] + [sep] + Join(parts[1..], sep)
  }

  /** `s.split(sep)` for a one-character separator: the maximal runs of `s`
      between separators, in order; the empty string splits into one empty part. */
  function Split(s: string, sep: char): (parts: seq<string>)
    ensures |parts| >= 1
    ensures forall i :: 0 <= i < |parts| ==> sep !in parts[i]
    ensures Join(parts, sep) == s
  {
    if s == [] then [[]]
    else
      var rest := Split(s[1..], sep);
      if s[0] == sep then
        assert ([[]] + rest)[1..] == rest;
        [[]] + rest
      else
        var parts := [[s[0]] + rest[0]] + rest[1..];
        assert parts[1..] == rest[1..];
        assert |rest| > 1 ==> Join(rest, sep) == rest[0] + [sep] + Join(rest[1..], sep);
        parts
  }

  /** The first part of a split is the text before the first separator, or the
      whole string when it holds no separator. */
  lemma SplitHead(s: string, sep: char)
    ensures var head := Split(s, sep)[0];
      && sep !in head
      && |head| <= |s| && s[..|head|] == head
      && (sep !in s ==> head == s)
      && (sep in s ==> |head| < |s| && s[|head|] == sep)
  {
    var parts := Split(s, sep);
    var head := parts[0];
    if |parts| == 1 {
      assert Join(parts, sep) == head;
    } else {
      assert s == head + [sep] + Join(parts[1..], sep);
      assert s[|head|] == sep;
    }
  }

  /** Everything after the first separator of `s` (empty when there is none). */
  function AfterFirst(s: string, sep: char): (tail: string)
    ensures |tail| <= |s|
  {
    SplitHead(s, sep);
    var head := Split(s, sep)[0];
    if |head| < |s| then s[|head| + 1..] else ""
  }

  /** The parts after the first rejoin to the text after the first separator. */
  lemma SplitTailJoin(s: string, sep: char)
    ensures Join(Split(s, sep)[1..], sep) == AfterFirst(s, sep)
  {
    var parts := Split(s, sep);
    SplitHead(s, sep);
    if |parts| == 1 {
      assert parts[1..] == [];
      assert Join(parts, sep) == parts[0];
    } else {
      assert s == parts[0] + [sep] + Join(parts[1..], sep);
      assert s[|parts[0]| + 1..] == Join(parts[1..], sep);
    }
  }

  /** A string is its first part, then (when it holds a separator) the
      separator and the text after it. */
  lemma SplitFirst(s: string, sep: char)
    ensures s == Split(s, sep)[0] + (if sep in s then [sep] + AfterFirst(s, sep) else "")
  {
    var head := Split(s, sep)[0];
    SplitHead(s, sep);
    if sep in s {
      assert s == s[..|head|] + [sep] + s[|head| + 1..];
    }
  }

  /** `s` with every occurrence of `from` replaced by `to`. */
  function Replace(s: string, from: char, to: char): (r: string)
    ensures |r| == |s|
    ensures forall i :: 0 <= i < |s| ==> r[i] == (if s[i] == from then to else s[i])
  {
    if s == [] then []
    else [if s[0] == from then to else s[0]] + Replace(s[1..], from, to)
  }

  lemma ReplaceAppend(a: string, b: string, from: char, to: char)
    ensures Replace(a + b, from, to) == Replace(a, from, to) + Replace(b, from, to)
  {
  }

  /** Joining parts that hold no `c` with `d` is joining them with `c` and then
      replacing every `c` by `d`. */
  lemma {:induction false} JoinReplace(parts: seq<string>, c: char, d: char)
    requires forall i :: 0 <= i < |parts| ==> c !in parts[i]
    ensures Join(parts, d) == Replace(Join(parts, c), c, d)
  {
    if |parts| == 0 {
    } else if |parts| == 1 {
      NoOccurrenceUnchanged(parts[0], c, d);
    } else {
      JoinReplace(parts[1..], c, d);
      NoOccurrenceUnchanged(parts[0], c, d);
      ReplaceAppend(parts[0] + [c], Join(parts[1..], c), c, d);
      ReplaceAppend(parts[0], [c], c, d);
    }
  }

  lemma NoOccurrenceUnchanged(s: string, c: char, d: char)
    requires c !in s
    ensures Replace(s, c, d) == s
  {
  }

  /** `s.substr(start)`: the suffix from `start`, empty when `start` is past the end. */
  function Substr(s: string, start: nat): (r: string)
    ensures start <= |s| ==> s == s[..start] + r
    ensures start >= |s| ==> r == ""
  {
    if start < |s| then s[start..] else ""
  }

  /** The parts after the first, joined by `to`, are the text after the first
      separator with every separator replaced by `to`. */
  lemma SplitTailRejoin(s: string, sep: char, to: char)
    ensures Join(Split(s, sep)[1..], to) == Replace(AfterFirst(s, sep), sep, to)
  {
    var parts := Split(s, sep);
    SplitTailJoin(s, sep);
    JoinReplace(parts[1..], sep, to);
  }
}
