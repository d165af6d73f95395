/** Each ecosystem line pattern reads back what the renderer writes on that
    ecosystem's line. */
module LineLaws {
  import opened Wrappers
  import opened Text
  import opened Matching
  import opened Environment
  import opened Releases

  /** `<tag><version>] ` is read off the front of a line. */
  lemma AfterTagOf(tag: string, v: string, t: string, s: string)
    requires IsVersion(v)
    requires s == tag + (v + ("] " + t))
    ensures AfterTag(s, tag) == Some(t)
  {
    PrefixOfConcat(tag, v + ("] " + t));
    ParseVersionComplete(v, "] " + t);
    PrefixOfConcat("] ", t);
  }

  /** ` - (.*)` reads the path up to the end of the line. */
  lemma PathOf(path: string, tail: string, x: string)
    requires '\n' !in path && (tail == [] || tail[0] == '\n')
    requires x == Sep + (path + tail)
    ensures HasPrefix(x, Sep) && LineRest(x[|Sep|..]) == path
  {
    PrefixOfConcat(Sep, path + tail);
    LineRestOf(path, tail);
  }

  /** The text after a package name: the delimiter, the version and ` - `. */
  lemma NameEndOf(delim: string, v: string, rest: string)
    requires IsVersion(v)
    ensures NameEnd(delim)(delim + (v + (Sep + rest)))
  {
    PrefixOfConcat(delim, v + (Sep + rest));
    ParseVersionComplete(v, Sep + rest);
    PrefixOfConcat(Sep, rest);
  }

  /** PackageVersion once the version and the path are in place. */
  lemma PackageVersionOf(t: string, k: nat, n: nat, delim: string, v: string, path: string, tail: string)
    requires IsVersion(v) && '\n' !in path && (tail == [] || tail[0] == '\n')
    requires k <= n && n + |delim| <= |t|
    requires t[n + |delim|..] == v + (Sep + (path + tail))
    ensures PackageVersion(t, k, n, delim) == Some(PackageLine(t[..n] + delim + v, t[k..n], path))
  {
    ParseVersionComplete(v, Sep + (path + tail));
    PathOf(path, tail, Sep + (path + tail));
  }

  /** No position inside the name already looks like the end of the name. */
  predicate NameRunsThrough(delim: string, name: string, after: string) {
    forall i :: 0 <= i < |name| ==> !NameEndsAt(delim, name, after, i)
  }

  predicate NameEndsAt(delim: string, name: string, after: string, i: nat)
    requires i <= |name|
  {
    NameEnd(delim)(name[i..] + after)
  }

  /** PackageName unfolded once its scan is known. */
  lemma PackageNameUnfold(t: string, k: nat, delim: string, n: nat)
    requires k <= |t|
    requires LazyScan(t, NameEnd(delim), false, k) == Some(n)
    requires n + |delim| <= |t|
    ensures PackageName(t, k, delim) == PackageVersion(t, k, n, delim)
  {
  }

  /** The package name scan runs over the name and stops where the delimiter follows. */
  lemma PackageNameScan(delim: string, prefix: string, name: string, after: string, t: string)
    requires '\n' !in name && NameRunsThrough(delim, name, after) && NameEnd(delim)(after)
    requires t == prefix + name + after
    ensures LazyScan(t, NameEnd(delim), false, |prefix|) == Some(|prefix| + |name|)
    ensures t[..|prefix| + |name|] == prefix + name && t[|prefix|..|prefix| + |name|] == name
    ensures t[|prefix| + |name|..] == after
  {
    forall i | 0 <= i < |name|
      ensures !NameEnd(delim)(name[i..] + after) && name[i] != '\n'
    {
      assert !NameEndsAt(delim, name, after, i);
    }
    ScanOver(prefix, name, after, NameEnd(delim), false);
    SliceOfConcat(prefix, name, after);
    PrefixOfConcat(prefix + name, after);
  }

  /** The package name scan stops right after the name. */
  lemma PackageNameOf(delim: string, prefix: string, name: string, v: string, path: string, tail: string, t: string)
    requires IsVersion(v) && '\n' !in name && '\n' !in path && (tail == [] || tail[0] == '\n')
    requires NameRunsThrough(delim, name, delim + (v + (Sep + (path + tail))))
    requires t == prefix + name + (delim + (v + (Sep + (path + tail))))
    ensures PackageName(t, |prefix|, delim) == Some(PackageLine(prefix + name + delim + v, name, path))
  {
    var u := v + (Sep + (path + tail));
    var after := delim + u;
    var n := |prefix| + |name|;
    assert LazyScan(t, NameEnd(delim), false, |prefix|) == Some(n) && t[..n] == prefix + name
        && t[|prefix|..n] == name && t[n..] == after by {
      NameEndOf(delim, v, path + tail);
      PackageNameScan(delim, prefix, name, after, t);
    }
    assert n + |delim| <= |t| && t[n + |delim|..] == u by {
      PrefixOfConcat(delim, u);
      DropDrop(t, n, |delim|);
    }
    PackageNameUnfold(t, |prefix|, delim, n);
    PackageVersionOf(t, |prefix|, n, delim, v, path, tail);
  }

  /** MatchPackage unfolded once the tag and the registry address are read. */
  lemma MatchPackageUnfold(s: string, tag: string, prefix: string, delim: string, t: string)
    requires AfterTag(s, tag) == Some(t) && HasPrefix(t, prefix)
    ensures MatchPackage(s, tag, prefix, delim) == PackageName(t, |prefix|, delim)
  {
  }

  /** A package line, followed by nothing or by further lines, is read back:
      the URL, the name and the path. */
  lemma MatchPackageOf(tag: string, prefix: string, delim: string, v: string, name: string, path: string, tail: string, s: string)
    requires IsVersion(v) && '\n' !in name && '\n' !in path && (tail == [] || tail[0] == '\n')
    requires NameRunsThrough(delim, name, delim + (v + (Sep + (path + tail))))
    requires s == tag + (v + ("] " + (prefix + name + (delim + (v + (Sep + (path + tail)))))))
    ensures MatchPackage(s, tag, prefix, delim) == Some(PackageLine(prefix + name + delim + v, name, path))
  {
    var after := delim + (v + (Sep + (path + tail)));
    var t := prefix + name + after;
    AfterTagOf(tag, v, t, s);
    assert HasPrefix(t, prefix) by {
      Assoc(prefix, name, after);
      PrefixOfConcat(prefix, name + after);
    }
    MatchPackageUnfold(s, tag, prefix, delim, t);
    PackageNameOf(delim, prefix, name, v, path, tail, t);
  }

  /** A name without the delimiter's first character never ends early. */
  lemma NameRunsThroughFree(delim: string, name: string, after: string)
    requires |delim| > 0 && delim[0] !in name
    ensures NameRunsThrough(delim, name, after)
  {
    forall i | 0 <= i < |name|
      ensures !NameEndsAt(delim, name, after, i)
    {
      var x := name[i..] + after;
      assert x[0] == name[i];
    }
  }

  /** A "/v/" that starts inside `name` and ends inside it occurs in `name`. */
  lemma OccursInside(name: string, after: string, i: nat)
    requires i + 3 <= |name| && HasPrefix(name[i..] + after, "/v/")
    ensures OccursAt(name, "/v/", i)
  {
    assert name[i..i + 3] == (name[i..] + after)[..3];
  }

  /** An NPM name without "/v/" in it never ends early, even when it ends in "/v". */
  lemma NpmNameRunsThrough(name: string, x: string)
    requires forall j :: !OccursAt(name, "/v/", j)
    ensures NameRunsThrough("/v/", name, "/v/" + x)
  {
    var after := "/v/" + x;
    forall i | 0 <= i < |name|
      ensures !NameEndsAt("/v/", name, after, i)
    {
      var y := name[i..] + after;
      if i + 3 <= |name| {
        if HasPrefix(y, "/v/") {
          OccursInside(name, after, i);
        }
      } else if i + 2 == |name| {
        // `name` ends in "/v": what follows the delimiter starts with 'v', not a digit.
        assert y[3..][0] == 'v';
        assert DigitEnd(y[3..], 0) == 0;
      }
    }
  }

  /** The NPM line of a release reads back its URL, name and path. */
  lemma MatchNpmLine(r: ReleasesInfo, tail: string)
    requires IsVersion(r.ReleaseVersion) && (tail == [] || tail[0] == '\n')
    requires '\n' !in r.NPMPackageName && '\n' !in r.TypescriptPath && !Contains(r.NPMPackageName, "/v/")
    ensures MatchNpm(NpmLine(r) + tail)
         == Some(PackageLine(NpmUrl(r.NPMPackageName, r.ReleaseVersion), r.NPMPackageName, r.TypescriptPath))
  {
    var v, name, path := r.ReleaseVersion, r.NPMPackageName, r.TypescriptPath;
    var x := v + (Sep + (path + tail));
    Nest7(NpmTag, v, "] ", NpmUrl(name, v), Sep, path, tail);
    Nest4(NpmPrefix, name, "/v/", v, Sep + (path + tail));
    NpmNameRunsThrough(name, x);
    MatchPackageOf(NpmTag, NpmPrefix, "/v/", v, name, path, tail, NpmLine(r) + tail);
  }

  /** The PyPI line of a release reads back its URL, name and path. */
  lemma MatchPypiLine(r: ReleasesInfo, tail: string)
    requires IsVersion(r.ReleaseVersion) && (tail == [] || tail[0] == '\n')
    requires '\n' !in r.PythonPackageName && '\n' !in r.PythonPath && '/' !in r.PythonPackageName
    ensures MatchPypi(PypiLine(r) + tail)
         == Some(PackageLine(PypiUrl(r.PythonPackageName, r.ReleaseVersion), r.PythonPackageName, r.PythonPath))
  {
    var v, name, path := r.ReleaseVersion, r.PythonPackageName, r.PythonPath;
    Nest7(PypiTag, v, "] ", PypiUrl(name, v), Sep, path, tail);
    Nest4(PypiPrefix, name, "/", v, Sep + (path + tail));
    NameRunsThroughFree("/", name, "/" + (v + (Sep + (path + tail))));
    MatchPackageOf(PypiTag, PypiPrefix, "/", v, name, path, tail, PypiLine(r) + tail);
  }

  /** The Composer line of a release reads back its URL, name and path. */
  lemma MatchComposerLine(r: ReleasesInfo, tail: string)
    requires IsVersion(r.ReleaseVersion) && (tail == [] || tail[0] == '\n')
    requires '\n' !in r.PHPPackageName && '\n' !in r.PHPPath && '#' !in r.PHPPackageName
    ensures MatchComposer(ComposerLine(r) + tail)
         == Some(PackageLine(ComposerUrl(r.PHPPackageName, r.ReleaseVersion), r.PHPPackageName, r.PHPPath))
  {
    var v, name, path := r.ReleaseVersion, r.PHPPackageName, r.PHPPath;
    Nest7(ComposerTag, v, "] ", ComposerUrl(name, v), Sep, path, tail);
    Nest4(ComposerPrefix, name, "#v", v, Sep + (path + tail));
    NameRunsThroughFree("#v", name, "#v" + (v + (Sep + (path + tail))));
    MatchPackageOf(ComposerTag, ComposerPrefix, "#v", v, name, path, tail, ComposerLine(r) + tail);
  }

  /** A version holds neither spaces nor newlines. */
  lemma VersionFree(v: string)
    requires IsVersion(v)
    ensures ' ' !in v && '\n' !in v && '/' !in v
  {
    VersionChars(v);
  }

  /** Only text starting with a space can start the separator. */
  lemma SepStartsWithSpace()
    ensures forall x :: SepStart(x) ==> |x| > 0 && x[0] == ' '
  {
    forall x | SepStart(x)
      ensures |x| > 0 && x[0] == ' '
    {
      assert x[..|Sep|][0] == x[0];
    }
  }

  /** UrlThenPath once its scan and the path after the separator are known. */
  lemma UrlThenPathAt(t: string, k: nat, w: nat, path: string)
    requires k <= w && w + |Sep| <= |t|
    requires LazyScan(t, SepStart, false, k) == Some(w)
    requires LineRest(t[w + |Sep|..]) == path
    ensures UrlThenPath(t, k) == Some((t[..w], path))
  {
  }

  /** `(.*?) - (.*)` over a space-free, newline-free piece reads that piece
      (with what precedes it) and the path after the separator. */
  lemma UrlThenPathOf(pre: string, url: string, path: string, tail: string, t: string, k: nat)
    requires ' ' !in url && '\n' !in url && '\n' !in path && (tail == [] || tail[0] == '\n')
    requires t == pre + url + (Sep + (path + tail)) && k == |pre|
    ensures UrlThenPath(t, k) == Some((pre + url, path))
  {
    var b := Sep + (path + tail);
    var w := |pre| + |url|;
    assert LazyScan(t, SepStart, false, |pre|) == Some(w) by {
      SepStartsWithSpace();
      PrefixOfConcat(Sep, path + tail);
      ScanPast(pre, url, b, SepStart, false, ' ');
    }
    assert w + |Sep| <= |t| && t[..w] == pre + url && LineRest(t[w + |Sep|..]) == path by {
      PrefixOfConcat(pre + url, b);
      DropDrop(t, w, |Sep|);
      PathOf(path, tail, b);
    }
    UrlThenPathAt(t, k, w, path);
  }

  /** MatchGo once the tag, the URL and the path are read. */
  lemma MatchGoAt(s: string, t: string, url: string, path: string)
    requires AfterTag(s, GoTag) == Some(t) && UrlThenPath(t, 0) == Some((url, path))
    ensures MatchGo(s) == Some(GoLine(url, path))
  {
  }

  /** The Go URL holds neither spaces nor newlines when the repository name does not. */
  lemma GoUrlFree(repo: string, v: string)
    requires IsVersion(v) && ' ' !in repo && '\n' !in repo
    ensures ' ' !in GoUrl(repo, v) && '\n' !in GoUrl(repo, v)
  {
    VersionFree(v);
  }

  /** The Go line of a release reads back its URL and path; the URL is built
      from the repository the action runs in. */
  lemma MatchGoLine(r: ReleasesInfo, env: Env, tail: string)
    requires IsVersion(r.ReleaseVersion) && (tail == [] || tail[0] == '\n')
    requires ' ' !in GetRepo(env) && '\n' !in GetRepo(env) && '\n' !in r.GoPath
    ensures MatchGo(GoLineOf(r, env) + tail) == Some(GoLine(GoUrl(GetRepo(env), r.ReleaseVersion), r.GoPath))
  {
    var v, path := r.ReleaseVersion, r.GoPath;
    var url := GoUrl(GetRepo(env), v);
    var t := url + (Sep + (path + tail));
    assert AfterTag(GoLineOf(r, env) + tail, GoTag) == Some(t) by {
      Nest7(GoTag, v, "] ", url, Sep, path, tail);
      AfterTagOf(GoTag, v, t, GoLineOf(r, env) + tail);
    }
    assert UrlThenPath(t, 0) == Some((url, path)) by {
      GoUrlFree(GetRepo(env), v);
      assert [] + url == url;
      UrlThenPathOf([], url, path, tail, t, 0);
    }
    MatchGoAt(GoLineOf(r, env) + tail, t, url, path);
  }

  /** The artifact is followed by `/<version> - `. */
  lemma MavenArtifactEndOf(v: string, rest: string)
    requires ' ' !in v && '\n' !in v && '/' !in v && SepStart(rest)
    ensures MavenArtifactEnd("/" + v + rest)
  {
    SepStartsWithSpace();
    ScanPast("/", v, rest, SepStart, false, ' ');
  }

  /** Only text starting with a slash can end a Maven artifact. */
  lemma ArtifactEndsWithSlash()
    ensures forall x :: MavenArtifactEnd(x) ==> |x| > 0 && x[0] == '/'
  {
    forall x | MavenArtifactEnd(x)
      ensures |x| > 0 && x[0] == '/'
    {
      assert x[..1][0] == x[0];
    }
  }

  /** Only text starting with a slash can end a Maven group id. */
  lemma GroupEndsWithSlash()
    ensures forall x :: MavenGroupEnd(x) ==> |x| > 0 && x[0] == '/'
  {
    forall x | MavenGroupEnd(x)
      ensures |x| > 0 && x[0] == '/'
    {
      assert x[..1][0] == x[0];
    }
  }

  /** The group id is followed by `/<artifact>/<version> - `. */
  lemma MavenGroupEndOf(a: string, x: string)
    requires '/' !in a && '\n' !in a && MavenArtifactEnd(x)
    ensures MavenGroupEnd("/" + a + x)
  {
    ArtifactEndsWithSlash();
    ScanPast("/", a, x, MavenArtifactEnd, false, '/');
  }

  /** The pieces of a Maven URL and what follows it, regrouped for each scan. */
  lemma MavenRegroup(p: string, g: string, d: string, a: string, v: string, rest: string)
    ensures p + g + d + a + d + v + rest == p + g + (d + a + (d + v + rest))
    ensures p + g + d + a + d + v + rest == p + g + d + a + (d + v + rest)
  {
  }

  /** The artifact scan runs over a slash-free, newline-free artifact. */
  lemma MavenArtifactScan(q: string, a: string, y: string, t: string)
    requires '/' !in a && '\n' !in a && MavenArtifactEnd(y)
    requires t == q + a + y
    ensures |q| + |a| < |t| && LazyScan(t, MavenArtifactEnd, false, |q|) == Some(|q| + |a|)
    ensures t[|q|..|q| + |a|] == a
  {
    ArtifactEndsWithSlash();
    ScanPast(q, a, y, MavenArtifactEnd, false, '/');
    SliceOfConcat(q, a, y);
  }

  /** The artifact scan in a Maven URL stops at the slash before the version. */
  lemma MavenArtifactScanOf(q: string, a: string, v: string, rest: string, t: string, j: nat, e: nat)
    requires ' ' !in v && '\n' !in v && '/' !in v && SepStart(rest) && '/' !in a && '\n' !in a
    requires t == q + a + "/" + v + rest && j == |q| && e == |q| + |a|
    ensures e < |t| && LazyScan(t, MavenArtifactEnd, false, j) == Some(e)
    ensures t[j..e] == a
  {
    MavenArtifactEndOf(v, rest);
    Group3(q + a, "/", v, rest);
    MavenArtifactScan(q, a, "/" + v + rest, t);
  }

  /** MavenUrlRest once the URL and the path are read. */
  lemma MavenUrlRestAt(t: string, k: nat, g: nat, ai: nat, url: string, path: string)
    requires k <= g < ai < |t|
    requires UrlThenPath(t, ai + 1) == Some((url, path))
    ensures MavenUrlRest(t, k, g, ai) == Some(MavenLine(url, t[k..g], t[g + 1..ai], path))
  {
  }

  /** The URL after the artifact's slash and the path after it, read as the
      rest of a Maven line. */
  lemma MavenUrlRestOf(pre: string, v: string, path: string, tail: string, t: string, k: nat, g: nat, ai: nat)
    requires ' ' !in v && '\n' !in v && '\n' !in path && (tail == [] || tail[0] == '\n')
    requires k <= g < ai && ai + 1 == |pre|
    requires t == pre + v + (Sep + (path + tail))
    ensures ai < |t| && MavenUrlRest(t, k, g, ai) == Some(MavenLine(pre + v, t[k..g], t[g + 1..ai], path))
  {
    UrlThenPathOf(pre, v, path, tail, t, ai + 1);
    MavenUrlRestAt(t, k, g, ai, pre + v, path);
  }

  /** The artifact scan hands over to the rest of the URL after the artifact. */
  lemma MavenArtifactStep(q: string, a: string, v: string, path: string, tail: string, t: string, k: nat, g: nat, ai: nat)
    requires ' ' !in v && '\n' !in v && '/' !in v && '/' !in a && '\n' !in a
    requires k <= g && g + 1 == |q| && ai == |q| + |a|
    requires t == q + a + "/" + v + (Sep + (path + tail))
    ensures ai < |t| && MavenArtifact(t, k, g) == MavenUrlRest(t, k, g, ai) && t[g + 1..ai] == a
  {
    PrefixOfConcat(Sep, path + tail);
    MavenArtifactScanOf(q, a, v, Sep + (path + tail), t, g + 1, ai);
  }

  /** Once the group id is read, the rest of a Maven URL reads back its
      artifact, its URL and the path after it; `q` is the text up to the
      slash after the group id. */
  lemma MavenArtifactOf(q: string, a: string, v: string, path: string, tail: string, t: string, k: nat, g: nat)
    requires ' ' !in v && '\n' !in v && '/' !in v && '/' !in a && '\n' !in a && '\n' !in path && (tail == [] || tail[0] == '\n')
    requires k <= g && g + 1 == |q|
    requires t == q + a + "/" + v + (Sep + (path + tail))
    ensures g < |t| && MavenArtifact(t, k, g) == Some(MavenLine(q + a + "/" + v, t[k..g], a, path))
  {
    var ai := |q| + |a|;
    MavenUrlRestOf(q + a + "/", v, path, tail, t, k, g, ai);
    MavenArtifactStep(q, a, v, path, tail, t, k, g, ai);
  }

  /** MavenGroup once its scan is known. */
  lemma MavenGroupAt(t: string, k: nat, g: nat)
    requires k <= g < |t|
    requires LazyScan(t, MavenGroupEnd, false, k) == Some(g)
    ensures MavenGroup(t, k) == MavenArtifact(t, k, g)
  {
  }

  /** The group scan in a Maven URL stops at the slash after the group id. */
  lemma MavenGroupScanOf(p: string, g: string, a: string, v: string, rest: string, t: string)
    requires ' ' !in v && '\n' !in v && '/' !in v && SepStart(rest) && '/' !in g && '\n' !in g && '/' !in a && '\n' !in a
    requires t == p + g + "/" + a + "/" + v + rest
    ensures |p| + |g| < |t| && LazyScan(t, MavenGroupEnd, false, |p|) == Some(|p| + |g|)
    ensures t[|p|..|p| + |g|] == g
  {
    var x := "/" + a + ("/" + v + rest);
    MavenRegroup(p, g, "/", a, v, rest);
    MavenArtifactEndOf(v, rest);
    MavenGroupEndOf(a, "/" + v + rest);
    GroupEndsWithSlash();
    ScanPast(p, g, x, MavenGroupEnd, false, '/');
    SliceOfConcat(p, g, x);
  }

  /** The Maven group scan stops right after the group id. */
  lemma MavenGroupOf(p: string, g: string, a: string, v: string, path: string, tail: string, t: string)
    requires ' ' !in v && '\n' !in v && '/' !in v && '/' !in g && '\n' !in g && '/' !in a && '\n' !in a
    requires '\n' !in path && (tail == [] || tail[0] == '\n')
    requires t == p + g + "/" + a + "/" + v + (Sep + (path + tail))
    ensures MavenGroup(t, |p|) == Some(MavenLine(p + g + "/" + a + "/" + v, g, a, path))
  {
    var gi := |p| + |g|;
    var ai := gi + 1 + |a|;
    var url := p + g + "/" + a + "/" + v;
    assert gi < |t| && MavenGroup(t, |p|) == MavenArtifact(t, |p|, gi) && t[|p|..gi] == g by {
      PrefixOfConcat(Sep, path + tail);
      MavenGroupScanOf(p, g, a, v, Sep + (path + tail), t);
      MavenGroupAt(t, |p|, gi);
    }
    assert MavenArtifact(t, |p|, gi) == Some(MavenLine(url, t[|p|..gi], a, path)) by {
      MavenArtifactOf(p + g + "/", a, v, path, tail, t, |p|, gi);
    }
  }

  /** The Maven line of a release reads back its URL, the group id and
      artifact the name was split into, and its path; rejoining the two
      gives the name back. */
  lemma MatchMavenLine(r: ReleasesInfo, tail: string)
    requires IsVersion(r.ReleaseVersion) && (tail == [] || tail[0] == '\n')
    requires '.' in r.JavaPackageName && '/' !in r.JavaPackageName && '\n' !in r.JavaPackageName
    requires '\n' !in r.JavaPath
    ensures var (g, a) := MavenCoordinates(r.JavaPackageName);
      MatchMaven(MavenLineOf(r) + tail) == Some(MavenLine(MavenUrl(g, a, r.ReleaseVersion), g, a, r.JavaPath))
      && g + "." + a == r.JavaPackageName
  {
    var v, path := r.ReleaseVersion, r.JavaPath;
    var (g, a) := MavenCoordinates(r.JavaPackageName);
    var url := MavenUrl(g, a, v);
    var rest := Sep + (path + tail);
    var t := url + rest;
    Nest7(MavenTag, v, "] ", url, Sep, path, tail);
    AfterTagOf(MavenTag, v, t, MavenLineOf(r) + tail);
    assert HasPrefix(t, MavenPrefix) by {
      Nest7(MavenPrefix, g, "/", a, "/", v, rest);
      PrefixOfConcat(MavenPrefix, g + ("/" + (a + ("/" + (v + rest)))));
    }
    VersionFree(v);
    MavenGroupOf(MavenPrefix, g, a, v, path, tail, t);
  }
}
