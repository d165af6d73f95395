/** The ledger's round trip: a release appended to the ledger with
    UpdateReleasesFile is what GetLastReleaseInfo reads back, for every
    release whose fields the patterns can delimit. */
module RoundTrip {
  import opened Wrappers
  import opened Text
  import opened Matching
  import opened Environment
  import opened Releases
  import opened BlockText
  import opened HeaderLaws
  import opened LineLaws
  import opened BlockLaws

  /** The releases the ledger can record faithfully: the version is a
      dotted triple of digits, no field holds a newline or a bracket, the
      fields the header pattern ends at a space hold no space, and no package
      name holds the text that ends it in its URL pattern. */
  ghost predicate Encodable(r: ReleasesInfo, env: Env) {
    && CanRender(r)
    && IsVersion(r.ReleaseVersion)
    && Plain(r.OpenAPIDocVersion) && ' ' !in r.OpenAPIDocVersion
    && Plain(r.OpenAPIDocPath)
    && Plain(r.SpeakeasyVersion) && ' ' !in r.SpeakeasyVersion
    && (r.NPMPackagePublished ==>
          Plain(r.NPMPackageName) && Plain(r.TypescriptPath) && !Contains(r.NPMPackageName, "/v/"))
    && (r.PythonPackagePublished ==>
          Plain(r.PythonPackageName) && Plain(r.PythonPath) && '/' !in r.PythonPackageName)
    && (r.GoPackagePublished ==>
          Plain(GetRepo(env)) && ' ' !in GetRepo(env) && Plain(r.GoPath))
    && (r.PHPPackagePublished ==>
          Plain(r.PHPPackageName) && Plain(r.PHPPath) && '#' !in r.PHPPackageName)
    && (r.JavaPackagePublished ==>
          Plain(r.JavaPackageName) && Plain(r.JavaPath) && '/' !in r.JavaPackageName)
  }

  /** What the ledger keeps of a release: the header fields, and for each
      published ecosystem its name, the URL the block links to and its path;
      an unpublished ecosystem comes back with empty fields. */
  function Recorded(r: ReleasesInfo, env: Env): ReleasesInfo
    requires CanRender(r)
  {
    var v := r.ReleaseVersion;
    ReleasesInfo(
      ReleaseVersion := v,
      OpenAPIDocVersion := r.OpenAPIDocVersion,
      SpeakeasyVersion := r.SpeakeasyVersion,
      OpenAPIDocPath := r.OpenAPIDocPath,
      PythonPackagePublished := r.PythonPackagePublished,
      PythonPackageName := if r.PythonPackagePublished then r.PythonPackageName else "",
      PythonPackageURL := if r.PythonPackagePublished then PypiUrl(r.PythonPackageName, v) else "",
      PythonPath := if r.PythonPackagePublished then r.PythonPath else "",
      NPMPackagePublished := r.NPMPackagePublished,
      NPMPackageName := if r.NPMPackagePublished then r.NPMPackageName else "",
      NPMPackageUrl := if r.NPMPackagePublished then NpmUrl(r.NPMPackageName, v) else "",
      TypescriptPath := if r.NPMPackagePublished then r.TypescriptPath else "",
      GoPackagePublished := r.GoPackagePublished,
      GoPackageURL := if r.GoPackagePublished then GoUrl(GetRepo(env), v) else "",
      GoPath := if r.GoPackagePublished then r.GoPath else "",
      PHPPackagePublished := r.PHPPackagePublished,
      PHPPackageName := if r.PHPPackagePublished then r.PHPPackageName else "",
      PHPPackageURL := if r.PHPPackagePublished then ComposerUrl(r.PHPPackageName, v) else "",
      PHPPath := if r.PHPPackagePublished then r.PHPPath else "",
      JavaPackagePublished := r.JavaPackagePublished,
      JavaPackageName := if r.JavaPackagePublished then r.JavaPackageName else "",
      JavaPackageURL :=
        if r.JavaPackagePublished then
          var (g, a) := MavenCoordinates(r.JavaPackageName); MavenUrl(g, a, v)
        else "",
      JavaPath := if r.JavaPackagePublished then r.JavaPath else "")
  }

  /** Each ecosystem's part of a recordable release is a line tagged by its letter. */
  lemma Parts(r: ReleasesInfo, env: Env)
    requires Encodable(r, env)
    ensures PartOf(NpmPart(r), 'N') && PartOf(PypiPart(r), 'P') && PartOf(GoPart(r, env), 'G')
    ensures PartOf(ComposerPart(r), 'C') && PartOf(MavenPart(r), 'M')
  {
    if r.NPMPackagePublished { NpmLineTagged(r); }
    if r.PythonPackagePublished { PypiLineTagged(r); }
    if r.GoPackagePublished { GoLineTagged(r, env); }
    if r.PHPPackagePublished { ComposerLineTagged(r); }
    if r.JavaPackagePublished { MavenLineTagged(r); }
  }

  /** The header and title of a block hold no bracket. */
  lemma TopFree(r: ReleasesInfo, env: Env)
    requires Encodable(r, env)
    ensures '[' !in Header(r) + Title(ReleaseLines(r, env))
  {
    HeaderLines(r);
    TitleLines();
  }

  // The block regrouped around each ecosystem's part.
  lemma AroundFirst(t: string, a: string, b: string, c: string, d: string, e: string)
    ensures t + a + b + c + d + e == t + "" + a + (b + c + d + e)
  {
  }

  lemma AroundSecond(t: string, a: string, b: string, c: string, d: string, e: string)
    ensures t + a + b + c + d + e == t + a + b + (c + d + e)
  {
  }

  lemma AroundThird(t: string, a: string, b: string, c: string, d: string, e: string)
    ensures t + a + b + c + d + e == t + (a + b) + c + (d + e)
  {
  }

  lemma AroundFourth(t: string, a: string, b: string, c: string, d: string, e: string)
    ensures t + a + b + c + d + e == t + (a + b + c) + d + e
  {
  }

  lemma AroundFifth(t: string, a: string, b: string, c: string, d: string, e: string)
    ensures t + a + b + c + d + e == t + (a + b + c + d) + e + ""
  {
  }

  /** A part tagged by one letter is free of another, and starts a line. */
  lemma PartFree(part: seq<string>, xp: char, x: char)
    requires PartOf(part, xp) && x != xp
    ensures TagFree(Follow(part), x) && StartsLine(Follow(part))
  {
    PartFacts(part, xp);
  }

  /** Parts tagged by other letters, one after another, are free of `x` and start a line. */
  lemma PartsFree(a: seq<string>, xa: char, b: seq<string>, xb: char, c: seq<string>, xc: char, x: char)
    requires PartOf(a, xa) && PartOf(b, xb) && PartOf(c, xc) && x != xa && x != xb && x != xc
    ensures TagFree(Follow(a) + Follow(b) + Follow(c), x) && StartsLine(Follow(a) + Follow(b) + Follow(c))
  {
    PartFree(a, xa, x);
    PartFree(b, xb, x);
    PartFree(c, xc, x);
    FreeConcat(Follow(a), Follow(b), x);
    FreeConcat(Follow(a) + Follow(b), Follow(c), x);
  }

  /** Lines after a line start a new line, whatever they are. */
  lemma LinesStart(a: seq<string>, b: seq<string>, c: seq<string>, d: seq<string>)
    ensures StartsLine(Follow(a) + Follow(b) + Follow(c) + Follow(d))
    ensures StartsLine(Follow(b) + Follow(c) + Follow(d)) && StartsLine(Follow(c) + Follow(d))
  {
    FollowStartsLine(a);
    FollowStartsLine(b);
    FollowStartsLine(c);
    FollowStartsLine(d);
  }

  /** The parts of a block, tagged in the order the block lists them. */
  predicate InOrder(top: string, n: seq<string>, p: seq<string>, g: seq<string>, c: seq<string>, m: seq<string>) {
    '[' !in top && PartOf(n, 'N') && PartOf(p, 'P') && PartOf(g, 'G') && PartOf(c, 'C') && PartOf(m, 'M')
  }

  /** A matcher tagged `N` finds the first part's line. */
  lemma FindFirstPart<T>(mt: string -> Option<T>, top: string, n: seq<string>, p: seq<string>, g: seq<string>,
                         c: seq<string>, m: seq<string>, e: Option<T>)
    requires TaggedBy(mt, 'N') && InOrder(top, n, p, g, c, m)
    requires n == [] ==> e == None
    requires n != [] ==> mt(n[0] + (Follow(p) + Follow(g) + Follow(c) + Follow(m))) == e && e.Some?
    ensures FindFirst(mt, top + Follow(n) + Follow(p) + Follow(g) + Follow(c) + Follow(m)) == e
  {
    PartsFree(p, 'P', g, 'G', c, 'C', 'N');
    PartFree(m, 'M', 'N');
    FreeConcat(Follow(p) + Follow(g) + Follow(c), Follow(m), 'N');
    AroundFirst(top, Follow(n), Follow(p), Follow(g), Follow(c), Follow(m));
    FindEco(mt, 'N', top, "", n, Follow(p) + Follow(g) + Follow(c) + Follow(m), e);
  }

  /** The NPM pattern finds the NPM line of a block, or nothing when the
      package was not published. */
  lemma FindNpmIn(r: ReleasesInfo, env: Env)
    requires Encodable(r, env)
    ensures FindFirst(MatchNpm, Block(r, env)) ==
      if r.NPMPackagePublished
      then Some(PackageLine(NpmUrl(r.NPMPackageName, r.ReleaseVersion), r.NPMPackageName, r.TypescriptPath))
      else None
  {
    var n, p, g, c, m := NpmPart(r), PypiPart(r), GoPart(r, env), ComposerPart(r), MavenPart(r);
    BlockShape(r, env);
    Parts(r, env);
    TopFree(r, env);
    if r.NPMPackagePublished {
      LinesStart(p, g, c, m);
      MatchNpmLine(r, Follow(p) + Follow(g) + Follow(c) + Follow(m));
    }
    NpmTagged();
    FindFirstPart(MatchNpm, Header(r) + Title(ReleaseLines(r, env)), n, p, g, c, m,
      if r.NPMPackagePublished
      then Some(PackageLine(NpmUrl(r.NPMPackageName, r.ReleaseVersion), r.NPMPackageName, r.TypescriptPath))
      else None);
  }

  /** A matcher tagged `P` finds the second part's line. */
  lemma FindSecondPart<T>(mt: string -> Option<T>, top: string, n: seq<string>, p: seq<string>, g: seq<string>,
                          c: seq<string>, m: seq<string>, e: Option<T>)
    requires TaggedBy(mt, 'P') && InOrder(top, n, p, g, c, m)
    requires p == [] ==> e == None
    requires p != [] ==> mt(p[0] + (Follow(g) + Follow(c) + Follow(m))) == e && e.Some?
    ensures FindFirst(mt, top + Follow(n) + Follow(p) + Follow(g) + Follow(c) + Follow(m)) == e
  {
    PartFree(n, 'N', 'P');
    PartsFree(g, 'G', c, 'C', m, 'M', 'P');
    AroundSecond(top, Follow(n), Follow(p), Follow(g), Follow(c), Follow(m));
    FindEco(mt, 'P', top, Follow(n), p, Follow(g) + Follow(c) + Follow(m), e);
  }

  /** A matcher tagged `G` finds the third part's line. */
  lemma FindThirdPart<T>(mt: string -> Option<T>, top: string, n: seq<string>, p: seq<string>, g: seq<string>,
                         c: seq<string>, m: seq<string>, e: Option<T>)
    requires TaggedBy(mt, 'G') && InOrder(top, n, p, g, c, m)
    requires g == [] ==> e == None
    requires g != [] ==> mt(g[0] + (Follow(c) + Follow(m))) == e && e.Some?
    ensures FindFirst(mt, top + Follow(n) + Follow(p) + Follow(g) + Follow(c) + Follow(m)) == e
  {
    PartFree(n, 'N', 'G');
    PartFree(p, 'P', 'G');
    FreeConcat(Follow(n), Follow(p), 'G');
    PartFree(c, 'C', 'G');
    PartFree(m, 'M', 'G');
    FreeConcat(Follow(c), Follow(m), 'G');
    AroundThird(top, Follow(n), Follow(p), Follow(g), Follow(c), Follow(m));
    FindEco(mt, 'G', top, Follow(n) + Follow(p), g, Follow(c) + Follow(m), e);
  }

  /** A matcher tagged `C` finds the fourth part's line. */
  lemma FindFourthPart<T>(mt: string -> Option<T>, top: string, n: seq<string>, p: seq<string>, g: seq<string>,
                          c: seq<string>, m: seq<string>, e: Option<T>)
    requires TaggedBy(mt, 'C') && InOrder(top, n, p, g, c, m)
    requires c == [] ==> e == None
    requires c != [] ==> mt(c[0] + Follow(m)) == e && e.Some?
    ensures FindFirst(mt, top + Follow(n) + Follow(p) + Follow(g) + Follow(c) + Follow(m)) == e
  {
    PartsFree(n, 'N', p, 'P', g, 'G', 'C');
    PartFree(m, 'M', 'C');
    AroundFourth(top, Follow(n), Follow(p), Follow(g), Follow(c), Follow(m));
    FindEco(mt, 'C', top, Follow(n) + Follow(p) + Follow(g), c, Follow(m), e);
  }

  /** A matcher tagged `M` finds the last part's line. */
  lemma FindFifthPart<T>(mt: string -> Option<T>, top: string, n: seq<string>, p: seq<string>, g: seq<string>,
                         c: seq<string>, m: seq<string>, e: Option<T>)
    requires TaggedBy(mt, 'M') && InOrder(top, n, p, g, c, m)
    requires m == [] ==> e == None
    requires m != [] ==> mt(m[0] + "") == e && e.Some?
    ensures FindFirst(mt, top + Follow(n) + Follow(p) + Follow(g) + Follow(c) + Follow(m)) == e
  {
    PartsFree(n, 'N', p, 'P', g, 'G', 'M');
    PartFree(c, 'C', 'M');
    FreeConcat(Follow(n) + Follow(p) + Follow(g), Follow(c), 'M');
    AroundFifth(top, Follow(n), Follow(p), Follow(g), Follow(c), Follow(m));
    FindEco(mt, 'M', top, Follow(n) + Follow(p) + Follow(g) + Follow(c), m, "", e);
  }

  /** The PyPI pattern finds the PyPI line of a block, or nothing when the
      package was not published. */
  lemma FindPypiIn(r: ReleasesInfo, env: Env)
    requires Encodable(r, env)
    ensures FindFirst(MatchPypi, Block(r, env)) ==
      if r.PythonPackagePublished
      then Some(PackageLine(PypiUrl(r.PythonPackageName, r.ReleaseVersion), r.PythonPackageName, r.PythonPath))
      else None
  {
    var n, p, g, c, m := NpmPart(r), PypiPart(r), GoPart(r, env), ComposerPart(r), MavenPart(r);
    BlockShape(r, env);
    Parts(r, env);
    TopFree(r, env);
    if r.PythonPackagePublished {
      LinesStart(n, g, c, m);
      MatchPypiLine(r, Follow(g) + Follow(c) + Follow(m));
    }
    PypiTagged();
    FindSecondPart(MatchPypi, Header(r) + Title(ReleaseLines(r, env)), n, p, g, c, m,
      if r.PythonPackagePublished
      then Some(PackageLine(PypiUrl(r.PythonPackageName, r.ReleaseVersion), r.PythonPackageName, r.PythonPath))
      else None);
  }

  /** The Go pattern finds the Go line of a block, or nothing when the
      module was not published. */
  lemma FindGoIn(r: ReleasesInfo, env: Env)
    requires Encodable(r, env)
    ensures FindFirst(MatchGo, Block(r, env)) ==
      if r.GoPackagePublished then Some(GoLine(GoUrl(GetRepo(env), r.ReleaseVersion), r.GoPath)) else None
  {
    var n, p, g, c, m := NpmPart(r), PypiPart(r), GoPart(r, env), ComposerPart(r), MavenPart(r);
    BlockShape(r, env);
    Parts(r, env);
    TopFree(r, env);
    if r.GoPackagePublished {
      LinesStart(n, p, c, m);
      MatchGoLine(r, env, Follow(c) + Follow(m));
    }
    GoTagged();
    FindThirdPart(MatchGo, Header(r) + Title(ReleaseLines(r, env)), n, p, g, c, m,
      if r.GoPackagePublished then Some(GoLine(GoUrl(GetRepo(env), r.ReleaseVersion), r.GoPath)) else None);
  }

  /** The Composer pattern finds the Composer line of a block, or nothing
      when the package was not published. */
  lemma FindComposerIn(r: ReleasesInfo, env: Env)
    requires Encodable(r, env)
    ensures FindFirst(MatchComposer, Block(r, env)) ==
      if r.PHPPackagePublished
      then Some(PackageLine(ComposerUrl(r.PHPPackageName, r.ReleaseVersion), r.PHPPackageName, r.PHPPath))
      else None
  {
    var n, p, g, c, m := NpmPart(r), PypiPart(r), GoPart(r, env), ComposerPart(r), MavenPart(r);
    BlockShape(r, env);
    Parts(r, env);
    TopFree(r, env);
    if r.PHPPackagePublished {
      FollowStartsLine(m);
      MatchComposerLine(r, Follow(m));
    }
    ComposerTagged();
    FindFourthPart(MatchComposer, Header(r) + Title(ReleaseLines(r, env)), n, p, g, c, m,
      if r.PHPPackagePublished
      then Some(PackageLine(ComposerUrl(r.PHPPackageName, r.ReleaseVersion), r.PHPPackageName, r.PHPPath))
      else None);
  }

  /** What the Maven pattern reads from the Maven line of a release. */
  function MavenRead(r: ReleasesInfo): MavenLine
    requires '.' in r.JavaPackageName
  {
    var (groupId, artifact) := MavenCoordinates(r.JavaPackageName);
    MavenLine(MavenUrl(groupId, artifact, r.ReleaseVersion), groupId, artifact, r.JavaPath)
  }

  /** The Maven line of a release, last in its block, reads back as `MavenRead`. */
  lemma MavenReadOf(r: ReleasesInfo)
    requires IsVersion(r.ReleaseVersion) && '.' in r.JavaPackageName
    requires '/' !in r.JavaPackageName && '\n' !in r.JavaPackageName && '\n' !in r.JavaPath
    ensures MatchMaven(MavenLineOf(r) + "") == Some(MavenRead(r))
    ensures MavenRead(r).groupId + "." + MavenRead(r).artifact == r.JavaPackageName
  {
    MatchMavenLine(r, "");
  }

  /** The Maven pattern finds the Maven line of a block, or nothing when the
      package was not published; the name it rebuilds is the package's name. */
  lemma FindMavenIn(r: ReleasesInfo, env: Env)
    requires Encodable(r, env)
    ensures FindFirst(MatchMaven, Block(r, env)) ==
      if r.JavaPackagePublished then Some(MavenRead(r)) else None
    ensures r.JavaPackagePublished ==> MavenRead(r).groupId + "." + MavenRead(r).artifact == r.JavaPackageName
  {
    var n, p, g, c, m := NpmPart(r), PypiPart(r), GoPart(r, env), ComposerPart(r), MavenPart(r);
    BlockShape(r, env);
    Parts(r, env);
    TopFree(r, env);
    if r.JavaPackagePublished {
      MavenReadOf(r);
    }
    MavenTagged();
    FindFifthPart(MatchMaven, Header(r) + Title(ReleaseLines(r, env)), n, p, g, c, m,
      if r.JavaPackagePublished then Some(MavenRead(r)) else None);
  }

  /** The header pattern finds the header fields at the start of a block. */
  lemma FindHeaderIn(r: ReleasesInfo, env: Env)
    requires Encodable(r, env)
    ensures FindFirst(MatchHeader, Block(r, env)) ==
      Some(HeaderFields(r.ReleaseVersion, r.OpenAPIDocVersion, r.OpenAPIDocPath, r.SpeakeasyVersion))
  {
    MatchHeaderOf(r, Join(Section(ReleaseLines(r, env)), "\n"));
  }

  /** A rendered block reads back as the release it was rendered from, as
      far as the ledger records it. */
  lemma BlockRoundTrip(r: ReleasesInfo, env: Env)
    requires Encodable(r, env)
    ensures ParseBlock(Block(r, env)) == Ok(Recorded(r, env))
  {
    FindHeaderIn(r, env);
    FindNpmIn(r, env);
    FindPypiIn(r, env);
    FindGoIn(r, env);
    FindComposerIn(r, env);
    FindMavenIn(r, env);
  }

  /** A block starts with its header's '#' and holds no blank line. */
  lemma BlockLines(r: ReleasesInfo, env: Env)
    requires Encodable(r, env)
    ensures NewlinesFollowed(Block(r, env)) && |Block(r, env)| > 0 && Block(r, env)[0] == '#'
  {
    var n, p, g, c, m := NpmPart(r), PypiPart(r), GoPart(r, env), ComposerPart(r), MavenPart(r);
    var t := Title(ReleaseLines(r, env));
    BlockShape(r, env);
    Parts(r, env);
    HeaderLines(r);
    TitleLines();
    PartFacts(n, 'N');
    PartFacts(p, 'P');
    PartFacts(g, 'G');
    PartFacts(c, 'C');
    PartFacts(m, 'M');
    NewlinesFollowedConcat(Header(r), t);
    NewlinesFollowedConcat(Header(r) + t, Follow(n));
    NewlinesFollowedConcat(Header(r) + t + Follow(n), Follow(p));
    NewlinesFollowedConcat(Header(r) + t + Follow(n) + Follow(p), Follow(g));
    NewlinesFollowedConcat(Header(r) + t + Follow(n) + Follow(p) + Follow(g), Follow(c));
    NewlinesFollowedConcat(Header(r) + t + Follow(n) + Follow(p) + Follow(g) + Follow(c), Follow(m));
  }

  /** Text with no blank line is its own last block. */
  lemma LastBlockOfNoBlank(b: string)
    requires NewlinesFollowed(b)
    ensures LastBlock(b) == b
  {
    NewlinesFollowedNoBlank(b);
  }

  /** Whatever the ledger holds, the last block after appending a separator
      and a block with no blank line is that block, with at most the newline
      a ledger ending in a newline leaves in front of it. */
  lemma {:induction false} LastBlockAppend(ledger: string, b: string)
    requires NewlinesFollowed(b) && |b| > 0 && b[0] != '\n'
    ensures LastBlock(ledger + BlockSeparator + b) in {b, "\n" + b}
    decreases |ledger|
  {
    var t := ledger + BlockSeparator + b;
    assert OccursAt(t, BlockSeparator, |ledger|) by {
      assert t[|ledger|..|ledger| + 2] == BlockSeparator;
    }
    var k := IndexOf(t, BlockSeparator).value;
    assert k <= |ledger|;
    if k + 2 <= |ledger| {
      assert t[k + 2..] == ledger[k + 2..] + BlockSeparator + b;
      LastBlockAppend(ledger[k + 2..], b);
    } else if k == |ledger| {
      assert t[k + 2..] == b;
      LastBlockOfNoBlank(b);
    } else {
      assert t[k + 2..] == "\n" + b;
      NewlineThen(b);
      LastBlockOfNoBlank("\n" + b);
    }
  }

  /** A matcher that fails at a leading newline finds what it finds after it. */
  lemma FindSkipsNewline<T>(m: string -> Option<T>, b: string)
    requires m("\n" + b).None?
    ensures FindFirst(m, "\n" + b) == FindFirst(m, b)
  {
    assert ("\n" + b)[1..] == b;
  }

  /** A tagged matcher skips a leading newline. */
  lemma TaggedSkipsNewline<T>(m: string -> Option<T>, x: char, b: string)
    requires TaggedBy(m, x)
    ensures FindFirst(m, "\n" + b) == FindFirst(m, b)
  {
    FindSkipsNewline(m, b);
  }

  /** The header pattern skips a leading newline. */
  lemma HeaderSkipsNewline(b: string)
    ensures FindFirst(MatchHeader, "\n" + b) == FindFirst(MatchHeader, b)
  {
    HeaderStartPlain();
    assert MatchHeader("\n" + b).None?;
    FindSkipsNewline(MatchHeader, b);
  }

  /** No pattern of the ledger matches at a newline, so a block read with a
      newline in front of it reads the same. */
  lemma ParseBlockNewline(b: string)
    ensures ParseBlock("\n" + b) == ParseBlock(b)
  {
    NpmTagged();
    PypiTagged();
    GoTagged();
    ComposerTagged();
    MavenTagged();
    HeaderSkipsNewline(b);
    TaggedSkipsNewline(MatchNpm, 'N', b);
    TaggedSkipsNewline(MatchPypi, 'P', b);
    TaggedSkipsNewline(MatchGo, 'G', b);
    TaggedSkipsNewline(MatchComposer, 'C', b);
    TaggedSkipsNewline(MatchMaven, 'M', b);
  }

  /** The last block of a ledger ending in a separator and a block with no
      blank line reads as that block. */
  lemma ReadBackBlock(ledger: string, b: string)
    requires NewlinesFollowed(b) && |b| > 0 && b[0] != '\n'
    ensures ParseReleases(ledger + BlockSeparator + b) == ParseBlock(b)
  {
    LastBlockAppend(ledger, b);
    if LastBlock(ledger + BlockSeparator + b) != b {
      ParseBlockNewline(b);
    }
  }

  /** ParseReleases reads back the release last rendered onto a ledger,
      whatever the ledger held before. */
  lemma ReadBackLast(ledger: string, r: ReleasesInfo, env: Env)
    requires Encodable(r, env)
    ensures ParseReleases(ledger + Render(r, env)) == Ok(Recorded(r, env))
  {
    Assoc(ledger, BlockSeparator, Block(r, env));
    BlockLines(r, env);
    ReadBackBlock(ledger, Block(r, env));
    BlockRoundTrip(r, env);
  }

  /** GetLastReleaseInfo, reading the ledger UpdateReleasesFile wrote,
      returns the release it appended. */
  lemma UpdateThenRead(ledger: string, r: ReleasesInfo, env: Env, open: IoStatus, write: IoStatus)
    requires Encodable(r, env)
    ensures var written := UpdateReleasesFile(ledger, r, env, open, write);
      written.Ok? ==> GetLastReleaseInfo(written) == Ok(Recorded(r, env))
  {
    if open.IoOk? && write.IoOk? {
      ReadBackLast(ledger, r, env);
    }
  }

  /** What a ledger held before never changes what is read back from the
      release appended last. */
  lemma AppendIrrelevant(ledger: string, r: ReleasesInfo, env: Env)
    requires Encodable(r, env)
    ensures ParseReleases(ledger + Render(r, env)) == ParseReleases(Render(r, env))
  {
    ReadBackLast(ledger, r, env);
    ReadBackLast("", r, env);
    assert "" + Render(r, env) == Render(r, env);
  }

  /** A rendered release opens with the separator and its header. */
  lemma RenderStartsWithHeader(r: ReleasesInfo, env: Env)
    requires CanRender(r)
    ensures HasPrefix(Render(r, env), BlockSeparator + Header(r))
  {
    Assoc(BlockSeparator, Header(r), Join(Section(ReleaseLines(r, env)), "\n"));
    PrefixOfConcat(BlockSeparator + Header(r), Join(Section(ReleaseLines(r, env)), "\n"));
  }

  /** The releases list has one line per published ecosystem, and gets its
      title exactly when some ecosystem was published. */
  lemma SectionIffPublished(r: ReleasesInfo, env: Env)
    requires CanRender(r)
    ensures |ReleaseLines(r, env)| ==
      (if r.NPMPackagePublished then 1 else 0) + (if r.PythonPackagePublished then 1 else 0)
      + (if r.GoPackagePublished then 1 else 0) + (if r.PHPPackagePublished then 1 else 0)
      + (if r.JavaPackagePublished then 1 else 0)
    ensures Section(ReleaseLines(r, env)) != [] <==>
      r.NPMPackagePublished || r.PythonPackagePublished || r.GoPackagePublished
      || r.PHPPackagePublished || r.JavaPackagePublished
    ensures Section(ReleaseLines(r, env)) != [] ==> Section(ReleaseLines(r, env))[0] == "\n" + ReleasesTitle
  {
  }

  /** Reading a block fails only on its header; a line that is missing or
      does not match leaves its ecosystem unpublished with empty fields. */
  lemma MissingLineUnpublished(b: string)
    requires ParseBlock(b).Ok?
    ensures ParseBlock(b).value.NPMPackagePublished <==> FindFirst(MatchNpm, b).Some?
    ensures ParseBlock(b).value.PythonPackagePublished <==> FindFirst(MatchPypi, b).Some?
    ensures ParseBlock(b).value.GoPackagePublished <==> FindFirst(MatchGo, b).Some?
    ensures ParseBlock(b).value.PHPPackagePublished <==> FindFirst(MatchComposer, b).Some?
    ensures ParseBlock(b).value.JavaPackagePublished <==> FindFirst(MatchMaven, b).Some?
    ensures FindFirst(MatchNpm, b).None? ==>
      var r := ParseBlock(b).value; r.NPMPackageName == "" && r.NPMPackageUrl == "" && r.TypescriptPath == ""
    ensures FindFirst(MatchPypi, b).None? ==>
      var r := ParseBlock(b).value; r.PythonPackageName == "" && r.PythonPackageURL == "" && r.PythonPath == ""
    ensures FindFirst(MatchGo, b).None? ==>
      var r := ParseBlock(b).value; r.GoPackageURL == "" && r.GoPath == ""
    ensures FindFirst(MatchComposer, b).None? ==>
      var r := ParseBlock(b).value; r.PHPPackageName == "" && r.PHPPackageURL == "" && r.PHPPath == ""
    ensures FindFirst(MatchMaven, b).None? ==>
      var r := ParseBlock(b).value; r.JavaPackageName == "" && r.JavaPackageURL == "" && r.JavaPath == ""
  {
  }
}
