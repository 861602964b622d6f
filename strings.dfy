/**
 * The few operations on Python `str` that the provider and `urllib.parse`
 * use: `find`, `in`, `split(sep)`, `split(sep)[0]`, `split(sep, 1)` and
 * `sep.join(parts)`.
 */
module Strings {
  import opened Wrappers

  /** `pat` occurs in `s` starting at index `i`. */
  predicate OccursAt(s: string, pat: string, i: nat)
  {
    i + |pat| <= |s| && s[i..i + |pat|] == pat
  }

  /** `s.find(pat)` (from `start`): the first index at or after `start` where `pat` occurs. */
  function FindFrom(s: string, pat: string, start: nat): (r: Option<nat>)
    requires start <= |s|
    ensures r.Some? ==> start <= r.value && OccursAt(s, pat, r.value)
    ensures r.Some? ==> forall j :: start <= j < r.value ==> !OccursAt(s, pat, j)
    ensures r.None? ==> forall j :: start <= j <= |s| ==> !OccursAt(s, pat, j)
    decreases |s| - start
  {
    if OccursAt(s, pat, start) then Some(start)
    else if start + |pat| >= |s| then
      assert forall j :: start < j <= |s| ==> !OccursAt(s, pat, j);
      None
    else FindFrom(s, pat, start + 1)
  }

  /** `s.find(pat)`. */
  function Find(s: string, pat: string): (r: Option<nat>)
    ensures r.Some? ==> OccursAt(s, pat, r.value)
    ensures r.Some? ==> forall j :: 0 <= j < r.value ==> !OccursAt(s, pat, j)
    ensures r.None? ==> forall j :: 0 <= j <= |s| ==> !OccursAt(s, pat, j)
  {
    FindFrom(s, pat, 0)
  }

  /** `s.split(sep)[0]`: everything before the first occurrence of `sep`, or all of `s`. */
  function Before(s: string, sep: string): (r: string)
    requires sep != ""
    ensures r <= s
    ensures Find(s, sep).Some? ==> |r| == Find(s, sep).value
    ensures Find(s, sep).None? ==> r == s
  {
    match Find(s, sep)
    case Some(i) => s[..i]
    case None => s
  }

  /** `s.split(c, 1)` for a one-character separator, with `""` after when `c` is absent. */
  function CutChar(s: string, c: char): (r: (string, string))
    ensures c !in r.0
    ensures if c in s then r.0 + [c] + r.1 == s else r == (s, "")
  {
    if |s| == 0 then ("", "")
    else if s[0] == c then ("", s[1..])
    else
      var (a, b) := CutChar(s[1..], c);
      assert s == [s[0]] + s[1..];
      ([s[0]] + a, b)
  }

  /** `s.split(c)` for a one-character separator: never empty, no piece holds `c`. */
  function Split(s: string, c: char): (r: seq<string>)
    ensures |r| >= 1
    ensures forall k :: 0 <= k < |r| ==> c !in r[k]
  {
    if |s| == 0 then [""]
    else if s[0] == c then [""] + Split(s[1..], c)
    else
      var rest := Split(s[1..], c);
      [[s[0]] + rest[0]] + rest[1..]
  }

  /** `c.join(parts)`. */
  function Join(parts: seq<string>, c: char): (r: string)
    ensures |parts| == 1 ==> r == parts[0]
  {
    if |parts| == 0 then ""
    else if |parts| == 1 then parts[0]
    else parts[0] + [c] + Join(parts[1..], c)
  }

  /** Joining the pieces of a split with the same separator gives the text back. */
  lemma {:induction false} JoinSplit(s: string, c: char)
    ensures Join(Split(s, c), c) == s
  {
    if |s| > 0 {
      var rest := Split(s[1..], c);
      JoinSplit(s[1..], c);
      if s[0] == c {
        assert Join([""] + rest, c) == "" + [c] + Join(rest, c) by {
          assert ([""] + rest)[1..] == rest;
        }
      } else if |rest| > 1 {
        var r := [[s[0]] + rest[0]] + rest[1..];
        assert r[1..] == rest[1..];
        assert s == [s[0]] + s[1..];
      }
    }
  }

  /** Splitting text that starts with a separator-free prefix extends the first piece. */
  lemma {:induction false} SplitPrefix(a: string, t: string, c: char)
    requires c !in a
    ensures Split(a + t, c) == [a + Split(t, c)[0]] + Split(t, c)[1..]
  {
    if |a| > 0 {
      SplitPrefix(a[1..], t, c);
      assert (a + t)[1..] == a[1..] + t;
      assert [a[0]] + (a[1..] + Split(t, c)[0]) == a + Split(t, c)[0];
    } else {
      var r := Split(t, c);
      assert a + t == t && a + r[0] == r[0];
      assert r == [r[0]] + r[1..];
    }
  }

  /** Splitting joined separator-free pieces gives the pieces back. */
  lemma {:induction false} SplitJoin(parts: seq<string>, c: char)
    requires |parts| >= 1
    requires forall k :: 0 <= k < |parts| ==> c !in parts[k]
    ensures Split(Join(parts, c), c) == parts
  {
    if |parts| == 1 {
      SplitPrefix(parts[0], "", c);
      assert parts[0] + "" == parts[0];
    } else {
      var tail := Join(parts[1..], c);
      SplitJoin(parts[1..], c);
      SplitPrefix(parts[0], [c] + tail, c);
      assert parts[0] + [c] + tail == parts[0] + ([c] + tail);
      assert ([c] + tail)[0] == c && ([c] + tail)[1..] == tail;
      assert Split([c] + tail, c) == [""] + parts[1..];
      assert Split([c] + tail, c)[0] == "" && Split([c] + tail, c)[1..] == parts[1..];
      assert parts[0] + "" == parts[0];
      assert parts == [parts[0]] + parts[1..];
    }
  }

  /** Text without the separator is a single piece. */
  lemma SplitNoSeparator(s: string, c: char)
    requires c !in s
    ensures Split(s, c) == [s]
  {
    SplitPrefix(s, "", c);
    assert s + "" == s;
  }

  /** Splitting at a separator splits each side independently. */
  lemma {:induction false} SplitAppend(a: string, b: string, c: char)
    ensures Split(a + [c] + b, c) == Split(a, c) + Split(b, c)
  {
    if |a| == 0 {
      assert a + [c] + b == [c] + b;
      SplitCons(c, b, c);
      assert Split(a, c) == [""];
    } else {
      SplitAppend(a[1..], b, c);
      SplitAppendStep(a[0], a[1..], b, c);
      assert a == [a[0]] + a[1..];
    }
  }

  /** One step of `SplitAppend`: a character in front of the first text. */
  lemma SplitAppendStep(x: char, t: string, b: string, c: char)
    requires Split(t + [c] + b, c) == Split(t, c) + Split(b, c)
    ensures Split([x] + t + [c] + b, c) == Split([x] + t, c) + Split(b, c)
  {
    SplitCons(x, t + [c] + b, c);
    SplitCons(x, t, c);
    Regroup([x], t + [c], b);
    Regroup([x], t, [c]);
    if x == c {
      PiecesRegroup([""], Split(t, c), Split(b, c));
    } else {
      FirstPieceExtended([x], Split(t, c), Split(b, c));
    }
  }

  lemma PiecesRegroup(p: seq<string>, q: seq<string>, r: seq<string>)
    ensures p + (q + r) == p + q + r
  {
  }

  /** Extending the first piece of `q + r` extends the first piece of `q`. */
  lemma FirstPieceExtended(x: string, q: seq<string>, r: seq<string>)
    requires |q| >= 1
    ensures [x + (q + r)[0]] + (q + r)[1..] == [x + q[0]] + q[1..] + r
  {
    assert (q + r)[0] == q[0] && (q + r)[1..] == q[1..] + r;
  }

  /** Splitting a text one character longer at the front. */
  lemma SplitCons(x: char, t: string, c: char)
    ensures Split([x] + t, c)
         == if x == c then [""] + Split(t, c) else [[x] + Split(t, c)[0]] + Split(t, c)[1..]
  {
    assert ([x] + t)[0] == x && ([x] + t)[1..] == t;
  }

  /** Joining one more piece appends the separator and that piece. */
  lemma {:induction false} JoinAppend(parts: seq<string>, x: string, c: char)
    requires |parts| >= 1
    ensures Join(parts + [x], c) == Join(parts, c) + [c] + x
  {
    if |parts| > 1 {
      JoinAppend(parts[1..], x, c);
      assert (parts + [x])[1..] == parts[1..] + [x];
    }
  }

  /** `s` has no two consecutive `c`. */
  predicate NoDoubled(s: string, c: char)
  {
    forall k :: 0 <= k < |s| - 1 ==> !(s[k] == c && s[k + 1] == c)
  }

  /**
   * Text with no doubled separator that does not end in one splits into
   * pieces that are all non-empty after the first.
   */
  lemma {:induction false} SplitPiecesNonEmpty(s: string, c: char)
    requires NoDoubled(s, c)
    requires |s| == 0 || s[|s| - 1] != c
    ensures forall k :: 1 <= k < |Split(s, c)| ==> Split(s, c)[k] != ""
  {
    if |s| > 0 {
      SplitPiecesNonEmpty(s[1..], c);
      if s[0] == c {
        assert |s| >= 2 && s[1] != c;
        var t := s[1..];
        assert Split(t, c)[0] == [t[0]] + Split(t[1..], c)[0];
      }
    }
  }

  /** When `pat` does not occur in `pre + pat + post` before `|pre|`, the first occurrence is right after `pre`. */
  lemma FirstOccurrence(pre: string, pat: string, post: string)
    requires pat != ""
    requires forall j :: 0 <= j < |pre| ==> !OccursAt(pre + pat + post, pat, j)
    ensures Find(pre + pat + post, pat) == Some(|pre|)
    ensures Before(pre + pat + post, pat) == pre
  {
    var s := pre + pat + post;
    assert s[|pre|..|pre| + |pat|] == pat;
    assert OccursAt(s, pat, |pre|);
  }

  /** Concatenation regrouped, for proofs where the solver would search for it among many facts. */
  lemma Regroup(a: string, b: string, c: string)
    ensures a + (b + c) == a + b + c
  {
  }
}
