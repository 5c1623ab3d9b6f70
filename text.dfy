/**
 * The two Python string operations the tick-table parser is built from,
 * `str.split(sep)` with an explicit separator and `str.replace(pat, rep)`,
 * over `string` (a sequence of characters), with the lemmas that say how
 * they behave on text assembled by concatenation.
 */
module Text {

  /**
   * Python's `s.split(c)` for a one-character separator: the pieces between
   * consecutive separators, in order. Empty pieces are kept, so the result is
   * never empty: splitting "" gives [""], and "a,,b" gives ["a", "", "b"].
   */
  function Split(s: string, c: char): (r: seq<string>)
    ensures |r| > 0
    ensures |r| > 1 <==> c in s
    ensures forall k :: 0 <= k < |r| ==> c !in r[k]
    decreases |s|
  {
    if |s| == 0 then [[]]
    else
      var rest := Split(s[1..], c);
      if s[0] == c then [[]] + rest
      else [[s[0]] + rest[0]] + rest[1..]
  }

  /** Python's `sep.join(parts)` for a one-character separator. */
  function Join(parts: seq<string>, c: char): string
  {
    if |parts| == 0 then []
    else if |parts| == 1 then parts[0]
    else parts[0] + [c] + Join(parts[1..], c)
  }

  /** Joining the pieces of a split with the same separator gives back the text. */
  lemma {:induction false} JoinSplit(s: string, c: char)
    ensures Join(Split(s, c), c) == s
    decreases |s|
  {
    if |s| > 0 {
      var rest := Split(s[1..], c);
      JoinSplit(s[1..], c);
      assert s == [s[0]] + s[1..];
      if s[0] == c {
        assert Split(s, c) == [[]] + rest;
      } else {
        var r := Split(s, c);
        assert r == [[s[0]] + rest[0]] + rest[1..];
        if |rest| > 1 {
          assert r[1..] == rest[1..];
          assert Join(r, c) == [s[0]] + (rest[0] + [c] + Join(rest[1..], c));
        }
      }
    }
  }

  /** Text without the separator is a single piece. */
  lemma {:induction false} SplitWithoutSeparator(a: string, c: char)
    requires c !in a
    ensures Split(a, c) == [a]
    decreases |a|
  {
    if |a| > 0 {
      SplitWithoutSeparator(a[1..], c);
      assert [a[0]] + a[1..] == a;
    }
  }

  /** A separator after a separator-free prefix cuts off exactly that prefix. */
  lemma {:induction false} SplitAtFirstSeparator(a: string, b: string, c: char)
    requires c !in a
    ensures Split(a + [c] + b, c) == [a] + Split(b, c)
    decreases |a|
  {
    var s := a + [c] + b;
    if |a| == 0 {
      assert s[1..] == b;
    } else {
      assert s[1..] == a[1..] + [c] + b;
      SplitAtFirstSeparator(a[1..], b, c);
      assert [a[0]] + a[1..] == a;
    }
  }

  /** Splitting a join of separator-free pieces recovers the pieces, in order. */
  lemma {:induction false} SplitJoin(parts: seq<string>, c: char)
    requires |parts| > 0
    requires forall k :: 0 <= k < |parts| ==> c !in parts[k]
    ensures Split(Join(parts, c), c) == parts
    decreases |parts|
  {
    if |parts| == 1 {
      SplitWithoutSeparator(parts[0], c);
    } else {
      SplitAtFirstSeparator(parts[0], Join(parts[1..], c), c);
      SplitJoin(parts[1..], c);
      assert [parts[0]] + parts[1..] == parts;
    }
  }

  /**
   * Python's `s.replace(pat, rep)` for a non-empty pattern `pat`: scanning
   * from the left, every occurrence of `pat` that does not overlap an earlier
   * replaced one becomes `rep`.
   */
  function Replace(s: string, pat: string, rep: string): (r: string)
    requires |pat| > 0
    ensures !Occurs(s, pat) ==> r == s
    decreases |s|
  {
    if |s| < |pat| then s
    else if s[..|pat|] == pat then
      assert OccursAt(s, pat, 0);
      rep + Replace(s[|pat|..], pat, rep)
    else
      assert [s[0]] + s[1..] == s;
      assert Occurs(s[1..], pat) ==> Occurs(s, pat) by {
        if Occurs(s[1..], pat) {
          var i :| OccursAt(s[1..], pat, i);
          assert s[i + 1..i + 1 + |pat|] == s[1..][i..i + |pat|];
          assert OccursAt(s, pat, i + 1);
        }
      }
      [s[0]] + Replace(s[1..], pat, rep)
  }

  /** `pat` occurs in `s` starting at position `i`. */
  ghost predicate OccursAt(s: string, pat: string, i: int)
  {
    0 <= i && i + |pat| <= |s| && s[i..i + |pat|] == pat
  }

  /** `pat` occurs somewhere in `s`. */
  ghost predicate Occurs(s: string, pat: string)
  {
    exists i :: OccursAt(s, pat, i)
  }

  /** Text that lacks one of the characters of `pat` holds no occurrence of it. */
  lemma {:induction false} ReplaceAbsent(s: string, pat: string, rep: string, k: nat)
    requires k < |pat| && pat[k] !in s
    ensures Replace(s, pat, rep) == s
    decreases |s|
  {
    if |s| >= |pat| {
      assert s[..|pat|][k] == s[k];
      ReplaceAbsent(s[1..], pat, rep, k);
      assert [s[0]] + s[1..] == s;
    }
  }

  /** An occurrence at the very start is replaced and the scan goes on after it. */
  lemma ReplaceAtStart(s: string, pat: string, rep: string)
    requires |pat| > 0
    ensures Replace(pat + s, pat, rep) == rep + Replace(s, pat, rep)
  {
    assert (pat + s)[..|pat|] == pat;
    assert (pat + s)[|pat|..] == s;
  }

  /**
   * When the first character of `pat` does not occur in `body`, the only
   * occurrence in `body + pat` is the final one.
   */
  lemma {:induction false} ReplaceAtEnd(body: string, pat: string, rep: string)
    requires |pat| > 0 && pat[0] !in body
    ensures Replace(body + pat, pat, rep) == body + rep
    decreases |body|
  {
    var s := body + pat;
    if |body| == 0 {
      assert s == pat + [];
      ReplaceAtStart([], pat, rep);
    } else {
      assert s[..|pat|] != pat by {
        assert s[..|pat|][0] == body[0];
      }
      assert s[1..] == body[1..] + pat;
      calc {
        Replace(s, pat, rep);
        [s[0]] + Replace(s[1..], pat, rep);
        { ReplaceAtEnd(body[1..], pat, rep); }
        [body[0]] + (body[1..] + rep);
        { assert [body[0]] + body[1..] == body; }
        body + rep;
      }
    }
  }

  /** Replacing a single character distributes over concatenation. */
  lemma {:induction false} ReplaceCharConcat(a: string, b: string, c: char, rep: string)
    ensures Replace(a + b, [c], rep) == Replace(a, [c], rep) + Replace(b, [c], rep)
    decreases |a|
  {
    if |a| > 0 {
      var ab := a + b;
      assert ab[1..] == a[1..] + b;
      assert ab[..1] == a[..1] == [a[0]];
      ReplaceCharConcat(a[1..], b, c, rep);
      if a[0] == c {
        assert Replace(ab, [c], rep) == rep + Replace(a[1..] + b, [c], rep);
        assert Replace(a, [c], rep) == rep + Replace(a[1..], [c], rep);
      } else {
        assert Replace(ab, [c], rep) == [a[0]] + Replace(a[1..] + b, [c], rep);
        assert Replace(a, [c], rep) == [a[0]] + Replace(a[1..], [c], rep);
      }
    } else {
      assert a + b == b;
    }
  }

  /**
   * Deleting a prefix and then a suffix from `pre + body + suf` leaves `body`
   * when the last character of the prefix does not occur after it and the
   * first character of the suffix does not occur in the body.
   */
  lemma StripAround(pre: string, body: string, suf: string)
    requires |pre| > 0 && |suf| > 0
    requires pre[|pre| - 1] !in body + suf
    requires suf[0] !in body
    ensures Replace(Replace(pre + body + suf, pre, []), suf, []) == body
  {
    var rest := body + suf;
    assert pre + body + suf == pre + rest;
    ReplaceAtStart(rest, pre, []);
    ReplaceAbsent(rest, pre, [], |pre| - 1);
    var stripped := Replace(pre + rest, pre, []);
    assert stripped == rest;
    ReplaceAtEnd(body, suf, []);
    assert Replace(rest, suf, []) == body + [];
    assert body + [] == body;
  }

  /** The text between the first and the second line break is line 1. */
  lemma SecondLine(line: string, rest: string)
    requires '\n' !in line
    ensures var lines := Split([] + ['\n'] + (line + ['\n'] + rest), '\n');
      |lines| > 1 && lines[1] == line
  {
    SplitAtFirstSeparator([], line + ['\n'] + rest, '\n');
    SplitAtFirstSeparator(line, rest, '\n');
  }
}
