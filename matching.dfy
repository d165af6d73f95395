/** What the ledger decoder needs from Go's regexp package, written as
    explicit functions instead of a regex engine.

    - FindStringSubmatch reports the LEFTMOST match: FindFirst tries a
      matcher at every suffix of the text, left to right.
    - A non-greedy group `(.*?)` takes the SHORTEST text after which the rest
      of the pattern matches: LazyScan returns the first position where the
      rest of the pattern is accepted. Without the (?s) flag `.` does not
      cross a newline, so the scan gives up there.
    - `\d+\.\d+\.\d+` is always followed by a non-digit literal in the
      ledger patterns, so each `\d+` takes the maximal run of digits. */
module Matching {
  import opened Wrappers
  import opened Text

  /** The leftmost position at which `m` matches, and what it captured there. */
  function FindFirst<T>(m: string -> Option<T>, s: string): (r: Option<T>)
    ensures r.Some? ==> exists i :: 0 <= i <= |s| && m(s[i..]) == r
    ensures r.Some? ==> m(s).Some? || (|s| > 0 && r == FindFirst(m, s[1..]))
    ensures r.None? ==> forall i :: 0 <= i <= |s| ==> m(s[i..]).None?
    decreases |s|
  {
    assert s[0..] == s;
    if m(s).Some? then m(s)
    else if s == [] then None
    else
      assert forall i :: 1 <= i <= |s| ==> s[i..] == s[1..][i - 1..];
      FindFirst(m, s[1..])
  }

  /** Text in front of which the matcher fails everywhere is skipped. */
  lemma {:induction false} SkipPrefix<T>(m: string -> Option<T>, p: string, s: string)
    requires forall i :: 0 <= i < |p| ==> m((p + s)[i..]).None?
    ensures FindFirst(m, p + s) == FindFirst(m, s)
    decreases |p|
  {
    if p != [] {
      assert (p + s)[0..] == p + s;
      assert (p + s)[1..] == p[1..] + s;
      forall i | 0 <= i < |p[1..]|
        ensures m((p[1..] + s)[i..]).None?
      {
        assert (p[1..] + s)[i..] == (p + s)[i + 1..];
      }
      SkipPrefix(m, p[1..], s);
    }
  }

  /** A matcher that fails on every suffix finds nothing. */
  lemma {:induction false} FindFirstNone<T>(m: string -> Option<T>, s: string)
    requires forall i :: 0 <= i <= |s| ==> m(s[i..]).None?
    ensures FindFirst(m, s) == None
    decreases |s|
  {
    assert s[0..] == s;
    if s != [] {
      forall i | 0 <= i <= |s[1..]|
        ensures m(s[1..][i..]).None?
      {
        assert s[1..][i..] == s[i + 1..];
      }
      FindFirstNone(m, s[1..]);
    }
  }

  /** The non-greedy `(.*?)`: the first position at or after `k` from which
      the rest of the pattern (`accept`) matches, never crossing a newline
      unless `dotAll`. */
  function LazyScan(s: string, accept: string -> bool, dotAll: bool, k: nat): (r: Option<nat>)
    requires k <= |s|
    ensures r.Some? ==> k <= r.value <= |s| && accept(s[r.value..])
    decreases |s| - k
  {
    if accept(s[k..]) then Some(k)
    else if k == |s| || (!dotAll && s[k] == '\n') then None
    else LazyScan(s, accept, dotAll, k + 1)
  }

  /** The scan stops at the FIRST accepted position: nothing before it is
      accepted, and it crosses no newline unless `dotAll`. */
  lemma {:induction false} LazyScanFirst(s: string, accept: string -> bool, dotAll: bool, k: nat)
    requires k <= |s|
    ensures LazyScan(s, accept, dotAll, k).Some? ==>
      forall i :: k <= i < LazyScan(s, accept, dotAll, k).value ==> !accept(s[i..]) && (dotAll || s[i] != '\n')
    ensures LazyScan(s, accept, dotAll, k).None? ==>
      forall i :: k <= i <= |s| && (dotAll || '\n' !in s[k..i]) ==> !accept(s[i..])
    decreases |s| - k
  {
    if !accept(s[k..]) && k < |s| && (dotAll || s[k] != '\n') {
      LazyScanFirst(s, accept, dotAll, k + 1);
      forall i | k + 1 <= i <= |s| && !dotAll && '\n' !in s[k..i]
        ensures '\n' !in s[k + 1..i]
      {
        assert s[k + 1..i] == s[k..i][1..];
      }
    }
  }

  /** The scan stops exactly at the first accepted position it can reach. */
  lemma {:induction false} LazyScanFinds(s: string, accept: string -> bool, dotAll: bool, k: nat, j: nat)
    requires k <= j <= |s|
    requires forall i :: k <= i < j ==> !accept(s[i..]) && (dotAll || s[i] != '\n')
    requires accept(s[j..])
    ensures LazyScan(s, accept, dotAll, k) == Some(j)
    decreases j - k
  {
    if k < j {
      LazyScanFinds(s, accept, dotAll, k + 1, j);
    }
  }

  /** A lazy scan whose stop condition needs the character `c` first runs
      over any text free of `c` (and of newlines, unless `dotAll`). */
  lemma ScanToChar(s: string, accept: string -> bool, dotAll: bool, c: char, k: nat, j: nat)
    requires k <= j <= |s|
    requires forall x :: accept(x) ==> |x| > 0 && x[0] == c
    requires forall i :: k <= i < j ==> s[i] != c && (dotAll || s[i] != '\n')
    requires accept(s[j..])
    ensures LazyScan(s, accept, dotAll, k) == Some(j)
  {
    forall i | k <= i < j
      ensures !accept(s[i..])
    {
      assert s[i..][0] == s[i];
    }
    LazyScanFinds(s, accept, dotAll, k, j);
  }

  /** A lazy scan started at the front of `m` in `a + m + b` runs over `m`
      when no suffix of `m` (followed by `b`) is accepted and stops at `b`
      when `b` is. */
  lemma ScanOver(a: string, m: string, b: string, accept: string -> bool, dotAll: bool)
    requires forall i :: 0 <= i < |m| ==> !accept(m[i..] + b) && (dotAll || m[i] != '\n')
    requires accept(b)
    ensures LazyScan(a + m + b, accept, dotAll, |a|) == Some(|a| + |m|)
  {
    var s := a + m + b;
    assert s[|a| + |m|..] == b;
    forall i | |a| <= i < |a| + |m|
      ensures !accept(s[i..]) && (dotAll || s[i] != '\n')
    {
      assert s[i..] == m[i - |a|..] + b;
    }
    LazyScanFinds(s, accept, dotAll, |a|, |a| + |m|);
  }

  /** The same when the stop condition needs a character `c` that `m` lacks. */
  lemma ScanPast(a: string, m: string, b: string, accept: string -> bool, dotAll: bool, c: char)
    requires forall x :: accept(x) ==> |x| > 0 && x[0] == c
    requires c !in m && (dotAll || '\n' !in m)
    requires accept(b)
    ensures LazyScan(a + m + b, accept, dotAll, |a|) == Some(|a| + |m|)
  {
    forall i | 0 <= i < |m|
      ensures !accept(m[i..] + b) && (dotAll || m[i] != '\n')
    {
      assert (m[i..] + b)[0] == m[i];
    }
    ScanOver(a, m, b, accept, dotAll);
  }

  /** Text in front of the scanned part does not change where the scan stops. */
  lemma {:induction false} LazyScanShift(a: string, b: string, accept: string -> bool, dotAll: bool, k: nat)
    requires k <= |b|
    ensures LazyScan(b, accept, dotAll, k).None? ==> LazyScan(a + b, accept, dotAll, |a| + k).None?
    ensures LazyScan(b, accept, dotAll, k).Some? ==>
      LazyScan(a + b, accept, dotAll, |a| + k) == Some(|a| + LazyScan(b, accept, dotAll, k).value)
    decreases |b| - k
  {
    assert (a + b)[|a| + k..] == b[k..];
    if k < |b| {
      assert (a + b)[|a| + k] == b[k];
      LazyScanShift(a, b, accept, dotAll, k + 1);
    }
  }

  /** Where a greedy `\d*` that starts at `k` stops: the first non-digit at or after `k`. */
  function DigitEnd(s: string, k: nat): (n: nat)
    requires k <= |s|
    ensures k <= n <= |s|
    ensures forall i :: k <= i < n ==> IsDigit(s[i])
    ensures n < |s| ==> !IsDigit(s[n])
    decreases |s| - k
  {
    if k < |s| && IsDigit(s[k]) then DigitEnd(s, k + 1) else k
  }

  lemma {:induction false} DigitEndAt(s: string, k: nat, n: nat)
    requires k <= n <= |s|
    requires forall i :: k <= i < n ==> IsDigit(s[i])
    requires n < |s| ==> !IsDigit(s[n])
    ensures DigitEnd(s, k) == n
    decreases n - k
  {
    if k < n {
      DigitEndAt(s, k + 1, n);
    }
  }

  /** `v` has dots at indices i and j, digits everywhere else, and the three
      digit runs are non-empty. */
  predicate VersionSplit(v: string, i: int, j: int) {
    0 < i && i + 1 < j && j + 1 < |v| && v[i] == '.' && v[j] == '.'
    && forall k :: 0 <= k < |v| && k != i && k != j ==> IsDigit(v[k])
  }

  /** `v` has the shape `\d+\.\d+\.\d+`. */
  ghost predicate IsVersion(v: string) {
    exists i, j :: VersionSplit(v, i, j)
  }

  /** A version is made of digits and dots, and starts and ends with a digit. */
  lemma VersionChars(v: string)
    requires IsVersion(v)
    ensures forall c :: c in v ==> c == '.' || IsDigit(c)
    ensures |v| > 0 && IsDigit(v[0]) && IsDigit(v[|v| - 1])
  {
    var i, j :| VersionSplit(v, i, j);
    forall c | c in v
      ensures c == '.' || IsDigit(c)
    {
      var k :| 0 <= k < |v| && v[k] == c;
    }
  }

  /** `\d+\.\d+\.\d+` at the front of `s`: the version text and what follows it. */
  function ParseVersion(s: string): (r: Option<(string, string)>)
    ensures r.Some? ==> s == r.value.0 + r.value.1 && IsVersion(r.value.0)
    ensures r.Some? ==> r.value.1 == [] || !IsDigit(r.value.1[0])
  {
    var a := DigitEnd(s, 0);
    if a == 0 || a == |s| || s[a] != '.' then None
    else
      var b := DigitEnd(s, a + 1);
      if b == a + 1 || b == |s| || s[b] != '.' then None
      else
        var c := DigitEnd(s, b + 1);
        if c == b + 1 then None
        else
          assert VersionSplit(s[..c], a, b);
          Some((s[..c], s[c..]))
  }

  /** Every version followed by a non-digit is read back exactly. */
  lemma ParseVersionComplete(v: string, rest: string)
    requires IsVersion(v)
    requires rest == [] || !IsDigit(rest[0])
    ensures ParseVersion(v + rest) == Some((v, rest))
  {
    var i, j :| VersionSplit(v, i, j);
    var s := v + rest;
    DigitEndAt(s, 0, i);
    DigitEndAt(s, i + 1, j);
    DigitEndAt(s, j + 1, |v|);
    assert s[..|v|] == v && s[|v|..] == rest;
  }

  /** The greedy `(.*)` at the end of an ecosystem pattern: the rest of the line. */
  function LineRest(s: string): (r: string)
    ensures HasPrefix(s, r) && '\n' !in r
    ensures |r| < |s| ==> s[|r|] == '\n'
  {
    match IndexOf(s, "\n")
    case None =>
      assert forall i :: 0 <= i < |s| ==> s[i] != '\n' by {
        forall i | 0 <= i < |s| ensures s[i] != '\n' {
          assert !OccursAt(s, "\n", i);
          assert s[i..i + 1] == [s[i]];
        }
      }
      s
    case Some(k) =>
      assert forall i :: 0 <= i < k ==> s[i] != '\n' by {
        forall i | 0 <= i < k ensures s[i] != '\n' {
          assert !OccursAt(s, "\n", i);
          assert s[i..i + 1] == [s[i]];
        }
      }
      assert s[k..k + 1] == "\n";
      s[..k]
  }

  /** A newline-free line followed by nothing or by a newline is read whole. */
  lemma LineRestOf(line: string, tail: string)
    requires '\n' !in line
    requires tail == [] || tail[0] == '\n'
    ensures LineRest(line + tail) == line
  {
    var s := line + tail;
    assert s[..|line|] == line;
  }
}
