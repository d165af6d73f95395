/** Facts about where a tagged line can be found in a block of lines, and
    about blank lines, independent of the ledger's particular patterns. */
module BlockText {
  import opened Wrappers
  import opened Text
  import opened Matching

  /** Lines, each preceded by a newline. */
  function Follow(ls: seq<string>): string
    decreases |ls|
  {
    if ls == [] then "" else "\n" + ls[0] + Follow(ls[1..])
  }

  /** A title joined with lines is the title followed by each line on its own line. */
  lemma {:induction false} JoinAfterTitle(t: string, ls: seq<string>)
    ensures Join([t] + ls, "\n") == t + Follow(ls)
    decreases |ls|
  {
    if ls != [] {
      assert ([t] + ls)[1..] == ls;
      JoinAfterTitle(ls[0], ls[1..]);
      assert [ls[0]] + ls[1..] == ls;
      calc {
        Join([t] + ls, "\n");
        t + "\n" + Join(ls, "\n");
        t + "\n" + (ls[0] + Follow(ls[1..]));
        { Assoc(t + "\n", ls[0], Follow(ls[1..])); }
        t + "\n" + ls[0] + Follow(ls[1..]);
        { Assoc(t, "\n" + ls[0], Follow(ls[1..])); }
        t + Follow(ls);
      }
    } else {
      assert t + Follow(ls) == t;
    }
  }

  lemma {:induction false} FollowAppend(a: seq<string>, b: seq<string>)
    ensures Follow(a + b) == Follow(a) + Follow(b)
    decreases |a|
  {
    if a != [] {
      assert (a + b)[0] == a[0] && (a + b)[1..] == a[1..] + b;
      FollowAppend(a[1..], b);
      Assoc("\n" + a[0], Follow(a[1..]), Follow(b));
    } else {
      assert a + b == b;
    }
  }

  /** No line tag with letter `x` starts in `p`: every '[' in `p` is followed,
      inside `p`, by a character other than `x`. */
  predicate TagFree(p: string, x: char) {
    forall j :: 0 <= j < |p| && p[j] == '[' ==> j + 1 < |p| && p[j + 1] != x
  }

  lemma TagFreeConcat(a: string, b: string, x: char)
    requires TagFree(a, x) && TagFree(b, x)
    ensures TagFree(a + b, x)
  {
    forall j | 0 <= j < |a + b| && (a + b)[j] == '['
      ensures j + 1 < |a + b| && (a + b)[j + 1] != x
    {
      if j < |a| {
        assert a[j] == '[';
      } else {
        assert b[j - |a|] == '[';
      }
    }
  }

  lemma BracketFree(p: string, x: char)
    requires '[' !in p
    ensures TagFree(p, x)
  {
  }

  /** Lines all free of the tag `x` stay free of it once put on their own lines. */
  lemma {:induction false} FollowTagFree(ls: seq<string>, x: char)
    requires forall i :: 0 <= i < |ls| ==> TagFree(ls[i], x)
    ensures TagFree(Follow(ls), x)
    decreases |ls|
  {
    if ls != [] {
      FollowTagFree(ls[1..], x);
      TagFreeConcat("\n", ls[0], x);
      TagFreeConcat("\n" + ls[0], Follow(ls[1..]), x);
    }
  }

  /** Every match of `m` starts with `- [` followed by the letter `x`. */
  ghost predicate TaggedBy<T>(m: string -> Option<T>, x: char) {
    forall y :: m(y).Some? ==> |y| >= 4 && y[0] == '-' && y[2] == '[' && y[3] == x
  }

  /** Neither of the first two characters of `s` opens a bracket. */
  predicate NoBracketStart(s: string) {
    (|s| > 0 ==> s[0] != '[') && (|s| > 1 ==> s[1] != '[')
  }

  /** A tagged matcher finds nothing in text free of its tag. */
  lemma FindTagFree<T>(m: string -> Option<T>, x: char, b: string)
    requires TaggedBy(m, x) && TagFree(b, x)
    ensures FindFirst(m, b) == None
  {
    forall i | 0 <= i <= |b|
      ensures m(b[i..]).None?
    {
      if i + 3 < |b| {
        assert b[i..][2] == b[i + 2] && b[i..][3] == b[i + 3];
      }
    }
    FindFirstNone(m, b);
  }

  /** A tagged matcher skips text free of its tag and finds the line after it. */
  lemma FindAfter<T>(m: string -> Option<T>, x: char, p: string, s: string)
    requires TaggedBy(m, x) && TagFree(p, x) && NoBracketStart(s) && m(s).Some?
    ensures FindFirst(m, p + s) == m(s)
  {
    forall i | 0 <= i < |p|
      ensures m((p + s)[i..]).None?
    {
      var y := (p + s)[i..];
      if i + 3 < |p + s| {
        assert y[2] == (p + s)[i + 2] && y[3] == (p + s)[i + 3];
      }
    }
    SkipPrefix(m, p, s);
    assert s[0..] == s;
  }

  /** Every newline in `s` is followed by a character that is not a newline. */
  predicate NewlinesFollowed(s: string) {
    forall j :: 0 <= j < |s| && s[j] == '\n' ==> j + 1 < |s| && s[j + 1] != '\n'
  }

  lemma NewlinesFollowedConcat(a: string, b: string)
    requires NewlinesFollowed(a) && NewlinesFollowed(b)
    ensures NewlinesFollowed(a + b)
  {
    forall j | 0 <= j < |a + b| && (a + b)[j] == '\n'
      ensures j + 1 < |a + b| && (a + b)[j + 1] != '\n'
    {
      if j < |a| {
        assert a[j] == '\n';
      } else {
        assert b[j - |a|] == '\n';
      }
    }
  }

  /** Text with that property holds no blank line. */
  lemma NewlinesFollowedNoBlank(s: string)
    requires NewlinesFollowed(s)
    ensures forall j :: !OccursAt(s, "\n\n", j)
  {
    forall j
      ensures !OccursAt(s, "\n\n", j)
    {
      if 0 <= j && j + 2 <= |s| {
        assert s[j..j + 2][0] == s[j] && s[j..j + 2][1] == s[j + 1];
      }
    }
  }

  /** Lines that do not start with a newline and have the property keep it
      when each is put on its own line. */
  lemma {:induction false} FollowNewlinesFollowed(ls: seq<string>)
    requires forall i :: 0 <= i < |ls| ==> |ls[i]| > 0 && ls[i][0] != '\n' && NewlinesFollowed(ls[i])
    ensures NewlinesFollowed(Follow(ls))
    decreases |ls|
  {
    if ls != [] {
      FollowNewlinesFollowed(ls[1..]);
      NewlineThen(ls[0]);
      NewlinesFollowedConcat("\n" + ls[0], Follow(ls[1..]));
    }
  }

  /** A newline in front of text that does not start with one. */
  lemma NewlineThen(l: string)
    requires |l| > 0 && l[0] != '\n' && NewlinesFollowed(l)
    ensures NewlinesFollowed("\n" + l)
  {
    forall j | 0 <= j < |"\n" + l| && ("\n" + l)[j] == '\n'
      ensures j + 1 < |"\n" + l| && ("\n" + l)[j + 1] != '\n'
    {
      if j > 0 {
        assert ("\n" + l)[j] == l[j - 1];
      }
    }
  }

  lemma NoNewlines(s: string)
    requires '\n' !in s
    ensures NewlinesFollowed(s)
  {
  }

  /** The lines that come after a line are empty or start on a new line. */
  lemma FollowStartsLine(ls: seq<string>)
    ensures Follow(ls) == [] || Follow(ls)[0] == '\n'
  {
  }

  lemma FollowOne(l: string)
    ensures Follow([l]) == "\n" + l
  {
    assert [l][1..] == [];
  }

  lemma Regroup(h: string, b: string, n: string, l: string, a: string)
    ensures h + b + (n + l) + a == (h + b + n) + (l + a)
  {
  }

  /** A tagged matcher finds nothing when the part is empty. */
  lemma FindInBlockNone<T>(m: string -> Option<T>, x: char, h: string, before: string, after: string)
    requires TaggedBy(m, x) && TagFree(h, x) && TagFree(before, x) && TagFree(after, x)
    ensures FindFirst(m, h + before + Follow([]) + after) == None
  {
    assert h + before + Follow([]) + after == h + before + after;
    TagFreeConcat(h, before, x);
    TagFreeConcat(h + before, after, x);
    FindTagFree(m, x, h + before + after);
  }

  /** A tagged matcher finds the line of a one-line part. */
  lemma FindInBlockOne<T>(m: string -> Option<T>, x: char, h: string, before: string, l: string, after: string)
    requires TaggedBy(m, x) && TagFree(h, x) && TagFree(before, x) && TagFree("\n", x)
    requires NoBracketStart(l + after) && m(l + after).Some?
    ensures FindFirst(m, h + before + Follow([l]) + after) == m(l + after)
  {
    FollowOne(l);
    Regroup(h, before, "\n", l, after);
    TagFreeConcat(h, before, x);
    TagFreeConcat(h + before, "\n", x);
    FindAfter(m, x, h + before + "\n", l + after);
  }

  /** A tagged matcher finds the line of a part that holds one, and nothing
      when the part is empty, wherever the part sits among lines free of its tag. */
  lemma FindInBlock<T>(m: string -> Option<T>, x: char, h: string, before: string, part: seq<string>, after: string, e: Option<T>)
    requires TaggedBy(m, x) && TagFree(h, x) && TagFree(before, x) && TagFree(after, x)
    requires |part| <= 1
    requires part == [] ==> e == None
    requires part != [] ==> TagFree("\n", x) && NoBracketStart(part[0] + after) && m(part[0] + after) == e && e.Some?
    ensures FindFirst(m, h + before + Follow(part) + after) == e
  {
    if part == [] {
      FindInBlockNone(m, x, h, before, after);
    } else {
      assert part == [part[0]];
      FindInBlockOne(m, x, h, before, part[0], after);
    }
  }
}
