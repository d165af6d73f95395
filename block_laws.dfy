/** Where the patterns find their lines in a rendered block: the header at
    the front, each published ecosystem's line after the lines before it,
    and nothing for an ecosystem that is not published. */
module BlockLaws {
  import opened Wrappers
  import opened Text
  import opened Matching
  import opened Environment
  import opened Releases
  import opened BlockText
  import opened HeaderLaws
  import opened LineLaws

  /** A field the ledger can hold on one line without confusing the patterns. */
  predicate Plain(s: string) {
    '[' !in s && '\n' !in s
  }

  /** `l` is a releases line with tag letter `x`: it starts with `- [x`, has no
      other '[' and no newline. */
  predicate TaggedLine(l: string, x: char) {
    |l| >= 4 && l[0] == '-' && l[1] == ' ' && l[2] == '[' && l[3] == x && '[' !in l[3..] && '\n' !in l
  }

  /** A tagged line is free of every other tag, starts neither with a newline
      nor with a bracket, and has no blank line. */
  lemma TaggedLineFacts(l: string, x: char, s: string)
    requires TaggedLine(l, x)
    ensures forall y :: y != x ==> TagFree(l, y)
    ensures NoBracketStart(l + s) && l[0] != '\n' && NewlinesFollowed(l)
  {
    forall j | 3 <= j < |l|
      ensures l[j] != '['
    {
      assert l[3..][j - 3] == l[j];
    }
  }

  /** A tag followed by plain text makes a tagged line. */
  lemma TaggedLineOf(tag: string, rest: string, x: char)
    requires |tag| >= 4 && tag[0] == '-' && tag[1] == ' ' && tag[2] == '[' && tag[3] == x
    requires '[' !in tag[3..] && '\n' !in tag && Plain(rest)
    ensures TaggedLine(tag + rest, x)
  {
    assert (tag + rest)[3..] == tag[3..] + rest;
  }

  /** A matcher whose matches start with a `- [x` tag is tagged by `x`. */
  lemma TaggedByPrefix<T>(m: string -> Option<T>, tag: string, x: char)
    requires |tag| >= 4 && tag[0] == '-' && tag[2] == '[' && tag[3] == x
    requires forall y :: m(y).Some? ==> HasPrefix(y, tag)
    ensures TaggedBy(m, x)
  {
    forall y | m(y).Some?
      ensures |y| >= 4 && y[0] == '-' && y[2] == '[' && y[3] == x
    {
      assert y[..|tag|] == tag;
      assert y[0] == tag[0] && y[2] == tag[2] && y[3] == tag[3];
    }
  }

  lemma NpmTagged()
    ensures TaggedBy(MatchNpm, 'N')
  {
    forall y
      ensures MatchNpm(y).Some? ==> HasPrefix(y, NpmTag)
    {
    }
    TaggedByPrefix(MatchNpm, NpmTag, 'N');
  }

  lemma PypiTagged()
    ensures TaggedBy(MatchPypi, 'P')
  {
    forall y
      ensures MatchPypi(y).Some? ==> HasPrefix(y, PypiTag)
    {
    }
    TaggedByPrefix(MatchPypi, PypiTag, 'P');
  }

  lemma GoTagged()
    ensures TaggedBy(MatchGo, 'G')
  {
    forall y
      ensures MatchGo(y).Some? ==> HasPrefix(y, GoTag)
    {
    }
    TaggedByPrefix(MatchGo, GoTag, 'G');
  }

  lemma ComposerTagged()
    ensures TaggedBy(MatchComposer, 'C')
  {
    forall y
      ensures MatchComposer(y).Some? ==> HasPrefix(y, ComposerTag)
    {
    }
    TaggedByPrefix(MatchComposer, ComposerTag, 'C');
  }

  lemma MavenTagged()
    ensures TaggedBy(MatchMaven, 'M')
  {
    forall y
      ensures MatchMaven(y).Some? ==> HasPrefix(y, MavenTag)
    {
    }
    TaggedByPrefix(MatchMaven, MavenTag, 'M');
  }

  /** A version is plain. */
  lemma VersionPlain(v: string)
    requires IsVersion(v)
    ensures Plain(v)
  {
    VersionChars(v);
  }

  /** A releases line built from a `- [x` tag and plain pieces is tagged by `x`. */
  lemma EcoLineTagged(tag: string, v: string, url: string, path: string, x: char)
    requires WellTagged(tag, x)
    requires IsVersion(v) && Plain(url) && Plain(path)
    ensures TaggedLine(EcoLine(tag, v, url, path), x)
  {
    VersionPlain(v);
    Group5(tag, v, "] ", url, Sep, path);
    TaggedLineOf(tag, v + "] " + url + Sep + path, x);
  }

  // The registry addresses and URL delimiters are plain.
  lemma NpmPrefixPlain() ensures Plain(NpmPrefix) {}
  lemma PypiPrefixPlain() ensures Plain(PypiPrefix) {}
  lemma GoPrefixPlain() ensures Plain(GoPrefix) {}
  lemma ComposerPrefixPlain() ensures Plain(ComposerPrefix) {}
  lemma MavenPrefixPlain() ensures Plain(MavenPrefix) {}
  lemma DelimitersPlain() ensures Plain("/v/") && Plain("/") && Plain("#v") && Plain("/releases/tag/v") {}

  /** Each line tag is `- [` and its letter, with no further '[' and no newline. */
  predicate WellTagged(tag: string, x: char) {
    |tag| >= 4 && tag[0] == '-' && tag[1] == ' ' && tag[2] == '[' && tag[3] == x
    && '[' !in tag[3..] && '\n' !in tag
  }

  lemma NpmTagWell() ensures WellTagged(NpmTag, 'N') {}
  lemma PypiTagWell() ensures WellTagged(PypiTag, 'P') {}
  lemma GoTagWell() ensures WellTagged(GoTag, 'G') {}
  lemma ComposerTagWell() ensures WellTagged(ComposerTag, 'C') {}
  lemma MavenTagWell() ensures WellTagged(MavenTag, 'M') {}

  /** A URL made of a plain prefix, a plain name, a plain delimiter and a version is plain. */
  lemma UrlPlain(prefix: string, name: string, delim: string, v: string)
    requires Plain(prefix) && Plain(name) && Plain(delim) && IsVersion(v)
    ensures Plain(prefix + name + delim + v)
  {
    VersionPlain(v);
  }

  lemma NpmLineTagged(r: ReleasesInfo)
    requires IsVersion(r.ReleaseVersion) && Plain(r.NPMPackageName) && Plain(r.TypescriptPath)
    ensures TaggedLine(NpmLine(r), 'N')
  {
    NpmPrefixPlain();
    DelimitersPlain();
    NpmTagWell();
    UrlPlain(NpmPrefix, r.NPMPackageName, "/v/", r.ReleaseVersion);
    EcoLineTagged(NpmTag, r.ReleaseVersion, NpmUrl(r.NPMPackageName, r.ReleaseVersion), r.TypescriptPath, 'N');
  }

  lemma PypiLineTagged(r: ReleasesInfo)
    requires IsVersion(r.ReleaseVersion) && Plain(r.PythonPackageName) && Plain(r.PythonPath)
    ensures TaggedLine(PypiLine(r), 'P')
  {
    PypiPrefixPlain();
    DelimitersPlain();
    PypiTagWell();
    UrlPlain(PypiPrefix, r.PythonPackageName, "/", r.ReleaseVersion);
    EcoLineTagged(PypiTag, r.ReleaseVersion, PypiUrl(r.PythonPackageName, r.ReleaseVersion), r.PythonPath, 'P');
  }

  lemma GoLineTagged(r: ReleasesInfo, env: Env)
    requires IsVersion(r.ReleaseVersion) && Plain(GetRepo(env)) && Plain(r.GoPath)
    ensures TaggedLine(GoLineOf(r, env), 'G')
  {
    GoPrefixPlain();
    DelimitersPlain();
    GoTagWell();
    UrlPlain(GoPrefix, GetRepo(env), "/releases/tag/v", r.ReleaseVersion);
    EcoLineTagged(GoTag, r.ReleaseVersion, GoUrl(GetRepo(env), r.ReleaseVersion), r.GoPath, 'G');
  }

  lemma ComposerLineTagged(r: ReleasesInfo)
    requires IsVersion(r.ReleaseVersion) && Plain(r.PHPPackageName) && Plain(r.PHPPath)
    ensures TaggedLine(ComposerLine(r), 'C')
  {
    ComposerPrefixPlain();
    DelimitersPlain();
    ComposerTagWell();
    UrlPlain(ComposerPrefix, r.PHPPackageName, "#v", r.ReleaseVersion);
    EcoLineTagged(ComposerTag, r.ReleaseVersion, ComposerUrl(r.PHPPackageName, r.ReleaseVersion), r.PHPPath, 'C');
  }

  /** The group id and artifact of a plain name are plain. */
  lemma CoordinatesPlain(name: string)
    requires '.' in name && Plain(name)
    ensures Plain(MavenCoordinates(name).0) && Plain(MavenCoordinates(name).1)
  {
    var (g, a) := MavenCoordinates(name);
    assert name == g + "." + a;
  }

  lemma MavenLineTagged(r: ReleasesInfo)
    requires '.' in r.JavaPackageName
    requires IsVersion(r.ReleaseVersion) && Plain(r.JavaPackageName) && Plain(r.JavaPath)
    ensures TaggedLine(MavenLineOf(r), 'M')
  {
    var (g, a) := MavenCoordinates(r.JavaPackageName);
    CoordinatesPlain(r.JavaPackageName);
    MavenPrefixPlain();
    DelimitersPlain();
    MavenTagWell();
    UrlPlain(MavenPrefix + g + "/", a, "/", r.ReleaseVersion);
    EcoLineTagged(MavenTag, r.ReleaseVersion, MavenUrl(g, a, r.ReleaseVersion), r.JavaPath, 'M');
  }

  // The fixed text of a header: no brackets, and every newline starts a non-empty line.
  lemma HeaderStartPlain() ensures Plain(HeaderStart) && HeaderStart[0] == '#' {}
  lemma CliUrlPlain() ensures Plain(CliUrl) {}
  lemma SpacePlain() ensures Plain(" ") {}

  /** Three plain lines, each after a newline. */
  lemma ThreeLines(a: string, b: string, c: string)
    requires Plain(a) && Plain(b) && Plain(c) && |a| > 0 && |b| > 0 && |c| > 0
    ensures '[' !in "\n" + (a + ("\n" + (b + ("\n" + c))))
    ensures NewlinesFollowed("\n" + (a + ("\n" + (b + ("\n" + c)))))
  {
    NewlineThen(c);
    NewlinesFollowedConcat(b, "\n" + c);
    NewlineThen(b + ("\n" + c));
    NewlinesFollowedConcat(a, "\n" + (b + ("\n" + c)));
    NewlineThen(a + ("\n" + (b + ("\n" + c))));
  }

  lemma HeaderMidSplit()
    ensures HeaderMid == "\n" + ("### Changes" + ("\n" + ("Based on:" + ("\n" + "- OpenAPI Doc "))))
  {
  }

  lemma HeaderMidPiecesPlain()
    ensures Plain("### Changes") && Plain("Based on:") && Plain("- OpenAPI Doc ")
  {
  }

  lemma HeaderMidLines()
    ensures '[' !in HeaderMid && NewlinesFollowed(HeaderMid)
  {
    HeaderMidSplit();
    HeaderMidPiecesPlain();
    ThreeLines("### Changes", "Based on:", "- OpenAPI Doc ");
  }

  lemma CliMarkerLines()
    ensures '[' !in CliMarker && NewlinesFollowed(CliMarker)
  {
    var a := "- Speakeasy CLI ";
    assert CliMarker == "\n" + a;
    assert Plain(a);
    NewlineThen(a);
  }

  lemma TitleLines()
    ensures '[' !in "\n" + ReleasesTitle && NewlinesFollowed("\n" + ReleasesTitle)
  {
    assert Plain(ReleasesTitle);
    NewlineThen(ReleasesTitle);
  }

  /** The header's pieces regrouped into lines. */
  lemma HeaderPieces(a1: string, a2: string, a3: string, a4: string, a5: string,
                     a6: string, a7: string, a8: string, a9: string, a10: string)
    ensures a1 + a2 + a3 + a4 + a5 + a6 + a7 + a8 + a9 + a10
         == (a1 + a2) + a3 + (a4 + a5 + a6) + a7 + (a8 + a9 + a10)
  {
  }

  /** A rendered header has no bracket, starts with '#', and every newline in
      it starts a non-empty line. */
  lemma HeaderLines(r: ReleasesInfo)
    requires IsVersion(r.ReleaseVersion) && Plain(r.OpenAPIDocVersion) && Plain(r.OpenAPIDocPath) && Plain(r.SpeakeasyVersion)
    ensures '[' !in Header(r) && NewlinesFollowed(Header(r)) && |Header(r)| > 0 && Header(r)[0] == '#'
  {
    var v, dv, dp, cv := r.ReleaseVersion, r.OpenAPIDocVersion, r.OpenAPIDocPath, r.SpeakeasyVersion;
    HeaderStartPlain();
    CliUrlPlain();
    SpacePlain();
    HeaderMidLines();
    CliMarkerLines();
    VersionPlain(v);
    HeaderPieces(HeaderStart, v, HeaderMid, dv, " ", dp, CliMarker, cv, " ", CliUrl);
    var p1, p3, p5 := HeaderStart + v, dv + " " + dp, cv + " " + CliUrl;
    NoNewlines(p1);
    NoNewlines(p3);
    NoNewlines(p5);
    NewlinesFollowedConcat(p1, HeaderMid);
    NewlinesFollowedConcat(p1 + HeaderMid, p3);
    NewlinesFollowedConcat(p1 + HeaderMid + p3, CliMarker);
    NewlinesFollowedConcat(p1 + HeaderMid + p3 + CliMarker, p5);
    assert Header(r)[0] == HeaderStart[0];
  }

  /** The title line a block gets when it lists any release. */
  function Title(lines: seq<string>): string {
    if |lines| > 0 then "\n" + ReleasesTitle else ""
  }

  lemma Group6(p: string, a: string, b: string, c: string, d: string, e: string, f: string)
    ensures p + (a + (b + c + d + e + f)) == p + a + b + c + d + e + f
  {
  }

  /** A block is its header, the title when there are lines, and then each
      ecosystem's part on its own line, in the order NPM, PyPI, Go, Composer, Maven. */
  lemma BlockShape(r: ReleasesInfo, env: Env)
    requires CanRender(r)
    ensures Block(r, env) == Header(r) + Title(ReleaseLines(r, env)) + Follow(NpmPart(r)) + Follow(PypiPart(r))
                            + Follow(GoPart(r, env)) + Follow(ComposerPart(r)) + Follow(MavenPart(r))
  {
    var lines := ReleaseLines(r, env);
    var n, p, g, c, m := NpmPart(r), PypiPart(r), GoPart(r, env), ComposerPart(r), MavenPart(r);
    assert Join(Section(lines), "\n") == Title(lines) + Follow(lines) by {
      if |lines| > 0 {
        JoinAfterTitle("\n" + ReleasesTitle, lines);
      } else {
        assert lines == [];
      }
    }
    assert Follow(lines) == Follow(n) + Follow(p) + Follow(g) + Follow(c) + Follow(m) by {
      FollowAppend(n + p + g + c, m);
      FollowAppend(n + p + g, c);
      FollowAppend(n + p, g);
      FollowAppend(n, p);
    }
    Group6(Header(r), Title(lines), Follow(n), Follow(p), Follow(g), Follow(c), Follow(m));
  }

  /** A part of the releases list: at most one line, tagged by `x`. */
  predicate PartOf(part: seq<string>, x: char) {
    |part| <= 1 && forall i :: 0 <= i < |part| ==> TaggedLine(part[i], x)
  }

  /** Empty, or starting with a newline. */
  predicate StartsLine(s: string) {
    s == [] || s[0] == '\n'
  }

  /** A part on its own line is free of every other tag and has no blank line. */
  lemma PartFacts(part: seq<string>, x: char)
    requires PartOf(part, x)
    ensures forall y :: y != x ==> TagFree(Follow(part), y)
    ensures StartsLine(Follow(part)) && NewlinesFollowed(Follow(part))
  {
    forall y | y != x
      ensures TagFree(Follow(part), y)
    {
      forall i | 0 <= i < |part|
        ensures TagFree(part[i], y)
      {
        TaggedLineFacts(part[i], x, "");
      }
      FollowTagFree(part, y);
    }
    forall i | 0 <= i < |part|
      ensures |part[i]| > 0 && part[i][0] != '\n' && NewlinesFollowed(part[i])
    {
      TaggedLineFacts(part[i], x, "");
    }
    FollowNewlinesFollowed(part);
  }

  lemma FreeConcat(a: string, b: string, x: char)
    requires TagFree(a, x) && TagFree(b, x) && StartsLine(a) && StartsLine(b)
    ensures TagFree(a + b, x) && StartsLine(a + b)
  {
    TagFreeConcat(a, b, x);
    if a == [] {
      assert a + b == b;
    }
  }

  /** A tagged matcher applied to a block finds its part's line (or nothing
      when the part is empty), given the parts around it are other ecosystems'. */
  lemma FindEco<T>(m: string -> Option<T>, x: char, h: string, before: string, part: seq<string>, after: string, e: Option<T>)
    requires TaggedBy(m, x) && '[' !in h && TagFree(before, x) && TagFree(after, x) && StartsLine(after)
    requires PartOf(part, x)
    requires part == [] ==> e == None
    requires part != [] ==> m(part[0] + after) == e && e.Some?
    ensures FindFirst(m, h + before + Follow(part) + after) == e
  {
    BracketFree(h, x);
    BracketFree("\n", x);
    if part != [] {
      TaggedLineFacts(part[0], x, after);
    }
    FindInBlock(m, x, h, before, part, after, e);
  }
}
