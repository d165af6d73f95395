/** The release ledger (RELEASES.md): one text block per generated release,
    appended at the end of the file, and read back by taking the last block
    and matching a header pattern and five optional per-ecosystem line
    patterns against it. */
module Releases {
  import opened Wrappers
  import opened Text
  import opened Matching
  import opened Environment

  /** What the ledger records about one release. */
  datatype ReleasesInfo = ReleasesInfo(
    ReleaseVersion: string,
    OpenAPIDocVersion: string,
    SpeakeasyVersion: string,
    OpenAPIDocPath: string,
    PythonPackagePublished: bool,
    PythonPackageName: string,
    PythonPackageURL: string,
    PythonPath: string,
    NPMPackagePublished: bool,
    NPMPackageName: string,
    NPMPackageUrl: string,
    TypescriptPath: string,
    GoPackagePublished: bool,
    GoPackageURL: string,
    GoPath: string,
    PHPPackagePublished: bool,
    PHPPackageName: string,
    PHPPackageURL: string,
    PHPPath: string,
    JavaPackagePublished: bool,
    JavaPackageName: string,
    JavaPackageURL: string,
    JavaPath: string)

  // Fixed text of a block.
  const BlockSeparator := "\n\n"
  const HeaderStart := "## Version "
  const HeaderMid := "\n### Changes\nBased on:\n- OpenAPI Doc "
  const CliMarker := "\n- Speakeasy CLI "
  const CliUrl := "https://github.com/speakeasy-api/speakeasy"
  const ReleasesTitle := "### Releases"
  const Sep := " - "

  // The start of each ecosystem line, up to the release version.
  const NpmTag := "- [NPM v"
  const PypiTag := "- [PyPI v"
  const GoTag := "- [Go v"
  const ComposerTag := "- [Composer v"
  const MavenTag := "- [Maven Central v"

  // Registry addresses the package URLs start with.
  const NpmPrefix := "https://www.npmjs.com/package/"
  const PypiPrefix := "https://pypi.org/project/"
  const GoPrefix := "https://github.com/"
  const ComposerPrefix := "https://packagist.org/packages/"
  const MavenPrefix := "https://central.sonatype.com/artifact/"

  const ParseError := "error parsing last release info"

  /* ---------------------------------------------------------------------
     Rendering (ReleasesInfo.String)
     --------------------------------------------------------------------- */

  /** One line of the releases list: `<tag><version>] <url> - <path>`. */
  function EcoLine(tag: string, version: string, url: string, path: string): string {
    tag + version + "] " + url + Sep + path
  }

  function NpmUrl(name: string, version: string): string {
    NpmPrefix + name + "/v/" + version
  }

  function PypiUrl(name: string, version: string): string {
    PypiPrefix + name + "/" + version
  }

  /** The Go line points at the GitHub release of the repository the action runs in. */
  function GoUrl(repo: string, version: string): string {
    GoPrefix + repo + "/releases/tag/v" + version
  }

  function ComposerUrl(name: string, version: string): string {
    ComposerPrefix + name + "#v" + version
  }

  function MavenUrl(groupId: string, artifact: string, version: string): string {
    MavenPrefix + groupId + "/" + artifact + "/" + version
  }

  /** A Maven name split at its last dot into group id and artifact; the
      split always rejoins to the name. */
  function MavenCoordinates(name: string): (r: (string, string))
    requires '.' in name
    ensures name == r.0 + "." + r.1
    ensures '.' !in r.1
  {
    var k := LastIndexOf(name, '.').value;
    assert name == name[..k] + "." + name[k + 1..];
    (name[..k], name[k + 1..])
  }

  /** The render panics on a published Maven package whose name has no dot. */
  predicate CanRender(r: ReleasesInfo) {
    r.JavaPackagePublished ==> '.' in r.JavaPackageName
  }

  function NpmLine(r: ReleasesInfo): string {
    EcoLine(NpmTag, r.ReleaseVersion, NpmUrl(r.NPMPackageName, r.ReleaseVersion), r.TypescriptPath)
  }

  function PypiLine(r: ReleasesInfo): string {
    EcoLine(PypiTag, r.ReleaseVersion, PypiUrl(r.PythonPackageName, r.ReleaseVersion), r.PythonPath)
  }

  function GoLineOf(r: ReleasesInfo, env: Env): string {
    EcoLine(GoTag, r.ReleaseVersion, GoUrl(GetRepo(env), r.ReleaseVersion), r.GoPath)
  }

  function ComposerLine(r: ReleasesInfo): string {
    EcoLine(ComposerTag, r.ReleaseVersion, ComposerUrl(r.PHPPackageName, r.ReleaseVersion), r.PHPPath)
  }

  function MavenLineOf(r: ReleasesInfo): string
    requires '.' in r.JavaPackageName
  {
    var (groupId, artifact) := MavenCoordinates(r.JavaPackageName);
    EcoLine(MavenTag, r.ReleaseVersion, MavenUrl(groupId, artifact, r.ReleaseVersion), r.JavaPath)
  }

  function NpmPart(r: ReleasesInfo): seq<string> {
    if r.NPMPackagePublished then [NpmLine(r)] else []
  }

  function PypiPart(r: ReleasesInfo): seq<string> {
    if r.PythonPackagePublished then [PypiLine(r)] else []
  }

  function GoPart(r: ReleasesInfo, env: Env): seq<string> {
    if r.GoPackagePublished then [GoLineOf(r, env)] else []
  }

  function ComposerPart(r: ReleasesInfo): seq<string> {
    if r.PHPPackagePublished then [ComposerLine(r)] else []
  }

  function MavenPart(r: ReleasesInfo): seq<string>
    requires CanRender(r)
  {
    if r.JavaPackagePublished then [MavenLineOf(r)] else []
  }

  /** The releases list: one line per published ecosystem, in the order
      NPM, PyPI, Go, Composer, Maven. */
  function ReleaseLines(r: ReleasesInfo, env: Env): seq<string>
    requires CanRender(r)
  {
    NpmPart(r) + PypiPart(r) + GoPart(r, env) + ComposerPart(r) + MavenPart(r)
  }

  /** The list gets a title line only when it is not empty. */
  function Section(lines: seq<string>): seq<string> {
    if |lines| > 0 then ["\n" + ReleasesTitle] + lines else []
  }

  /** The fixed part of a block: release version, then what it was generated from. */
  function Header(r: ReleasesInfo): string {
    HeaderStart + r.ReleaseVersion + HeaderMid + r.OpenAPIDocVersion + " " + r.OpenAPIDocPath
    + CliMarker + r.SpeakeasyVersion + " " + CliUrl
  }

  /** A block without the separator in front of it. */
  function Block(r: ReleasesInfo, env: Env): string
    requires CanRender(r)
  {
    Header(r) + Join(Section(ReleaseLines(r, env)), "\n")
  }

  /** ReleasesInfo.String: the text appended to the ledger for one release. */
  function Render(r: ReleasesInfo, env: Env): string
    requires CanRender(r)
  {
    BlockSeparator + Block(r, env)
  }

  /** UpdateReleasesFile: the ledger after appending the rendered release, or
      the error of opening or writing the file. */
  function UpdateReleasesFile(ledger: string, r: ReleasesInfo, env: Env, open: IoStatus, write: IoStatus): (res: Result<string>)
    requires CanRender(r)
    ensures open.IoErr? ==> res == Err("error opening releases file: " + open.cause)
    ensures open.IoOk? && write.IoErr? ==> res == Err("error writing to releases file: " + write.cause)
    ensures res.Ok? <==> open.IoOk? && write.IoOk?
    ensures res.Ok? ==> HasPrefix(res.value, ledger) && res.value[|ledger|..] == Render(r, env)
  {
    if open.IoErr? then Err("error opening releases file: " + open.cause)
    else if write.IoErr? then Err("error writing to releases file: " + write.cause)
    else
      var res := ledger + Render(r, env);
      assert res[..|ledger|] == ledger && res[|ledger|..] == Render(r, env);
      Ok(res)
  }

  /** getReleasesPath: path.Join of the base directory, "repo" and "RELEASES.md". */
  function ReleasesPath(env: Env): (p: string)
    ensures p == "repo/RELEASES.md" <==> GetBaseDir(env) == "./"
    ensures p == "/repo/RELEASES.md" <==> GetBaseDir(env) == "/"
  {
    // path.Join cleans "./repo/RELEASES.md" to "repo/RELEASES.md".
    if GetBaseDir(env) == "./" then "repo/RELEASES.md" else "/repo/RELEASES.md"
  }

  /* ---------------------------------------------------------------------
     Parsing (ParseReleases)
     --------------------------------------------------------------------- */

  /** strings.Split on the blank-line separator, keeping only the last part:
      the whole text exactly when it holds no separator. */
  function LastBlock(s: string): (b: string)
    ensures |b| <= |s|
    ensures forall j :: !OccursAt(b, BlockSeparator, j)
    ensures b == s <==> IndexOf(s, BlockSeparator).None?
    decreases |s|
  {
    match IndexOf(s, BlockSeparator)
    case None => s
    case Some(k) => LastBlock(s[k + 2..])
  }

  /** `b` ends the text `s` and directly follows a separator in it. */
  predicate FollowsSeparator(s: string, b: string) {
    |b| + 2 <= |s| && OccursAt(s, BlockSeparator, |s| - |b| - 2) && s[|s| - |b|..] == b
  }

  /** What follows a separator is a part that follows that separator. */
  lemma AfterSeparator(s: string, k: nat)
    requires OccursAt(s, BlockSeparator, k)
    ensures FollowsSeparator(s, s[k + 2..])
  {
  }

  /** A part that follows a separator in a suffix follows it in the whole text. */
  lemma FollowsSeparatorShift(s: string, m: nat, b: string)
    requires m <= |s| && FollowsSeparator(s[m..], b)
    ensures FollowsSeparator(s, b)
  {
    var t := s[m..];
    var i := |t| - |b| - 2;
    assert t[i..i + 2] == s[m + i..m + i + 2];
    DropDrop(s, m, |t| - |b|);
  }

  /** When the text holds a separator, its last part is a suffix of the text
      that directly follows a separator. */
  lemma {:induction false} LastBlockFollowsSeparator(s: string)
    requires IndexOf(s, BlockSeparator).Some?
    ensures FollowsSeparator(s, LastBlock(s))
    decreases |s|
  {
    var k := IndexOf(s, BlockSeparator).value;
    var t := s[k + 2..];
    assert LastBlock(s) == LastBlock(t);
    if IndexOf(t, BlockSeparator).None? {
      AfterSeparator(s, k);
    } else {
      LastBlockFollowsSeparator(t);
      FollowsSeparatorShift(s, k + 2, LastBlock(t));
    }
  }

  /** What the header pattern captures. */
  datatype HeaderFields = HeaderFields(version: string, docVersion: string, docPath: string, cliVersion: string)

  /** The trailing `.*?` of the header pattern: a space. */
  predicate CliVersionEnd(x: string) {
    |x| > 0 && x[0] == ' '
  }

  /** What must follow the doc path: the CLI line, with a space after the CLI version. */
  predicate DocPathEnd(x: string) {
    HasPrefix(x, CliMarker) && LazyScan(x, CliVersionEnd, true, |CliMarker|).Some?
  }

  /** What must follow the doc version: a space, then a doc path and the CLI line. */
  predicate DocVersionEnd(x: string) {
    |x| > 0 && x[0] == ' ' && LazyScan(x, DocPathEnd, true, 1).Some?
  }

  /** The header pattern, `(?s)## Version (\d+\.\d+\.\d+)\n### Changes\nBased on:\n- OpenAPI Doc (.*?) (.*?)\n- Speakeasy CLI (.*?) .*?`,
      anchored at the start of `s`. */
  function MatchHeader(s: string): (r: Option<HeaderFields>)
    ensures r.Some? ==> HasPrefix(s, HeaderStart) && IsVersion(r.value.version)
  {
    if !HasPrefix(s, HeaderStart) then None
    else
      match ParseVersion(s[|HeaderStart|..])
      case None => None
      case Some((version, t)) => HeaderAfterVersion(version, t)
  }

  /** The header pattern after the release version `version`. */
  function HeaderAfterVersion(version: string, t: string): (r: Option<HeaderFields>)
    ensures r.Some? ==> r.value.version == version
  {
    if !HasPrefix(t, HeaderMid) then None else HeaderDocVersion(version, t, |HeaderMid|)
  }

  /** `(.*?) ` for the doc version, starting at `k`. */
  function HeaderDocVersion(version: string, t: string, k: nat): (r: Option<HeaderFields>)
    requires k <= |t|
    ensures r.Some? ==> r.value.version == version
  {
    match LazyScan(t, DocVersionEnd, true, k)
    case None => None
    case Some(p) => HeaderDocPath(version, t[k..p], t, p + 1)
  }

  /** `(.*?)\n- Speakeasy CLI ` for the doc path, starting at `k`. */
  function HeaderDocPath(version: string, docVersion: string, t: string, k: nat): (r: Option<HeaderFields>)
    requires k <= |t|
    ensures r.Some? ==> r.value.version == version
  {
    match LazyScan(t, DocPathEnd, true, k)
    case None => None
    case Some(q) => HeaderCliVersion(version, docVersion, t[k..q], t, q + |CliMarker|)
  }

  /** `(.*?) ` for the CLI version, starting at `k`. */
  function HeaderCliVersion(version: string, docVersion: string, docPath: string, t: string, k: nat): (r: Option<HeaderFields>)
    requires k <= |t|
    ensures r.Some? ==> r.value.version == version
  {
    match LazyScan(t, CliVersionEnd, true, k)
    case None => None
    case Some(w) => Some(HeaderFields(version, docVersion, docPath, t[k..w]))
  }

  /** The text after `<tag><version>] ` when `s` starts that way. */
  function AfterTag(s: string, tag: string): (r: Option<string>)
    ensures r.Some? ==> HasPrefix(s, tag)
  {
    if !HasPrefix(s, tag) then None
    else
      match ParseVersion(s[|tag|..])
      case None => None
      case Some((_, rest)) => if HasPrefix(rest, "] ") then Some(rest[2..]) else None
  }

  /** `\d+\.\d+\.\d+ - ` at the front of `x`. */
  predicate VersionThenSep(x: string) {
    match ParseVersion(x)
    case None => false
    case Some((_, rest)) => HasPrefix(rest, Sep)
  }

  /** What a package line pattern captures: the URL, the package name and the path. */
  datatype PackageLine = PackageLine(url: string, name: string, path: string)

  /** What the Go line pattern captures. */
  datatype GoLine = GoLine(url: string, path: string)

  /** What the Maven line pattern captures. */
  datatype MavenLine = MavenLine(url: string, groupId: string, artifact: string, path: string)

  /** The `.*?` that runs up to the next ` - `. */
  predicate SepStart(x: string) {
    HasPrefix(x, Sep)
  }

  /** ` - (.*)` after a `.*?` that starts at `k`: the text before the separator
      and the rest of the line after it. */
  function UrlThenPath(t: string, k: nat): (r: Option<(string, string)>)
    requires k <= |t|
  {
    match LazyScan(t, SepStart, false, k)
    case None => None
    case Some(w) => Some((t[..w], LineRest(t[w + |Sep|..])))
  }

  /** What follows the package name in a package URL: the delimiter, a version and ` - `. */
  predicate PackageNameEnd(delim: string, x: string) {
    HasPrefix(x, delim) && VersionThenSep(x[|delim|..])
  }

  /** PackageNameEnd for a fixed delimiter, as the stop condition of a scan. */
  function NameEnd(delim: string): string -> bool {
    x => PackageNameEnd(delim, x)
  }

  /** The pattern shared by the NPM, PyPI and Composer lines,
      `- \[<tag>\d+\.\d+\.\d+\] (<prefix>(.*?)<delim>\d+\.\d+\.\d+) - (.*)`,
      anchored at the start of `s`. */
  function MatchPackage(s: string, tag: string, prefix: string, delim: string): (r: Option<PackageLine>)
    ensures r.Some? ==> HasPrefix(s, tag)
  {
    match AfterTag(s, tag)
    case None => None
    case Some(t) => if !HasPrefix(t, prefix) then None else PackageName(t, |prefix|, delim)
  }

  /** `(.*?)` for the package name, starting at `k`. */
  function PackageName(t: string, k: nat, delim: string): (r: Option<PackageLine>)
    requires k <= |t|
  {
    match LazyScan(t, NameEnd(delim), false, k)
    case None => None
    case Some(n) => PackageVersion(t, k, n, delim)
  }

  /** `<delim>\d+\.\d+\.\d+) - (.*)` once the name `t[k..n]` is read. */
  function PackageVersion(t: string, k: nat, n: nat, delim: string): (r: Option<PackageLine>)
    requires k <= n && n + |delim| <= |t|
  {
    match ParseVersion(t[n + |delim|..])
    case None => None
    case Some((version, rest)) =>
      if !HasPrefix(rest, Sep) then None
      else Some(PackageLine(t[..n] + delim + version, t[k..n], LineRest(rest[|Sep|..])))
  }

  /** `- \[NPM v\d+\.\d+\.\d+\] (https://www.npmjs.com/package/(.*?)/v/\d+\.\d+\.\d+) - (.*)` */
  function MatchNpm(s: string): (r: Option<PackageLine>)
    ensures r.Some? ==> HasPrefix(s, NpmTag)
  {
    MatchPackage(s, NpmTag, NpmPrefix, "/v/")
  }

  /** `- \[PyPI v\d+\.\d+\.\d+\] (https://pypi.org/project/(.*?)/\d+\.\d+\.\d+) - (.*)` */
  function MatchPypi(s: string): (r: Option<PackageLine>)
    ensures r.Some? ==> HasPrefix(s, PypiTag)
  {
    MatchPackage(s, PypiTag, PypiPrefix, "/")
  }

  /** `- \[Composer v\d+\.\d+\.\d+\] (https://packagist.org/packages/(.*?)#v\d+\.\d+\.\d+) - (.*)` */
  function MatchComposer(s: string): (r: Option<PackageLine>)
    ensures r.Some? ==> HasPrefix(s, ComposerTag)
  {
    MatchPackage(s, ComposerTag, ComposerPrefix, "#v")
  }

  /** `- \[Go v\d+\.\d+\.\d+\] (.*?) - (.*)`, anchored at the start of `s`. */
  function MatchGo(s: string): (r: Option<GoLine>)
    ensures r.Some? ==> HasPrefix(s, GoTag)
  {
    match AfterTag(s, GoTag)
    case None => None
    case Some(t) =>
      match UrlThenPath(t, 0)
      case None => None
      case Some((url, path)) => Some(GoLine(url, path))
  }

  /** What must follow the artifact: a slash, then anything up to ` - `. */
  predicate MavenArtifactEnd(x: string) {
    HasPrefix(x, "/") && LazyScan(x, SepStart, false, 1).Some?
  }

  /** What must follow the group id: a slash, an artifact and the rest of the URL. */
  predicate MavenGroupEnd(x: string) {
    HasPrefix(x, "/") && LazyScan(x, MavenArtifactEnd, false, 1).Some?
  }

  /** `- \[Maven Central v\d+\.\d+\.\d+\] (https://central.sonatype.com/artifact/(.*?)/(.*?)/.*?) - (.*)`,
      anchored at the start of `s`. */
  function MatchMaven(s: string): (r: Option<MavenLine>)
    ensures r.Some? ==> HasPrefix(s, MavenTag)
  {
    match AfterTag(s, MavenTag)
    case None => None
    case Some(t) => if !HasPrefix(t, MavenPrefix) then None else MavenGroup(t, |MavenPrefix|)
  }

  /** `(.*?)/` for the group id, starting at `k`. */
  function MavenGroup(t: string, k: nat): (r: Option<MavenLine>)
    requires k <= |t|
  {
    match LazyScan(t, MavenGroupEnd, false, k)
    case None => None
    case Some(g) => MavenArtifact(t, k, g)
  }

  /** `(.*?)/` for the artifact, once the group id `t[k..g]` is read. */
  function MavenArtifact(t: string, k: nat, g: nat): (r: Option<MavenLine>)
    requires k <= g < |t|
  {
    match LazyScan(t, MavenArtifactEnd, false, g + 1)
    case None => None
    case Some(a) => MavenUrlRest(t, k, g, a)
  }

  /** `.*?) - (.*)` once the group id `t[k..g]` and the artifact `t[g + 1..a]` are read. */
  function MavenUrlRest(t: string, k: nat, g: nat, a: nat): (r: Option<MavenLine>)
    requires k <= g < a < |t|
  {
    match UrlThenPath(t, a + 1)
    case None => None
    case Some((url, path)) => Some(MavenLine(url, t[k..g], t[g + 1..a], path))
  }

  /** The record ParseReleases fills in field by field: the header fields,
      then each ecosystem whose line was found (Go's zero values for the others). */
  function Assemble(h: HeaderFields, npm: Option<PackageLine>, pypi: Option<PackageLine>, go: Option<GoLine>,
                    composer: Option<PackageLine>, maven: Option<MavenLine>): ReleasesInfo
  {
    ReleasesInfo(
      ReleaseVersion := h.version,
      OpenAPIDocVersion := h.docVersion,
      SpeakeasyVersion := h.cliVersion,
      OpenAPIDocPath := h.docPath,
      PythonPackagePublished := pypi.Some?,
      PythonPackageName := if pypi.Some? then pypi.value.name else "",
      PythonPackageURL := if pypi.Some? then pypi.value.url else "",
      PythonPath := if pypi.Some? then pypi.value.path else "",
      NPMPackagePublished := npm.Some?,
      NPMPackageName := if npm.Some? then npm.value.name else "",
      NPMPackageUrl := if npm.Some? then npm.value.url else "",
      TypescriptPath := if npm.Some? then npm.value.path else "",
      GoPackagePublished := go.Some?,
      GoPackageURL := if go.Some? then go.value.url else "",
      GoPath := if go.Some? then go.value.path else "",
      PHPPackagePublished := composer.Some?,
      PHPPackageName := if composer.Some? then composer.value.name else "",
      PHPPackageURL := if composer.Some? then composer.value.url else "",
      PHPPath := if composer.Some? then composer.value.path else "",
      JavaPackagePublished := maven.Some?,
      // The Maven name is rebuilt as `<group id>.<artifact>`.
      JavaPackageName := if maven.Some? then maven.value.groupId + "." + maven.value.artifact else "",
      JavaPackageURL := if maven.Some? then maven.value.url else "",
      JavaPath := if maven.Some? then maven.value.path else "")
  }

  /** One block read back: the header is mandatory, each ecosystem line is
      optional and is searched for anywhere in the block (leftmost match). */
  function ParseBlock(b: string): (r: Result<ReleasesInfo>)
    ensures r.Err? <==> forall i :: 0 <= i <= |b| ==> MatchHeader(b[i..]).None?
    ensures r.Err? ==> r.msg == ParseError
  {
    match FindFirst(MatchHeader, b)
    case None => Err(ParseError)
    case Some(h) =>
      Ok(Assemble(h, FindFirst(MatchNpm, b), FindFirst(MatchPypi, b), FindFirst(MatchGo, b),
                  FindFirst(MatchComposer, b), FindFirst(MatchMaven, b)))
  }

  /** ParseReleases: the last block of the ledger, read back. */
  function ParseReleases(data: string): Result<ReleasesInfo> {
    ParseBlock(LastBlock(data))
  }

  /** GetLastReleaseInfo: the ledger as read from disk (or the read error), parsed. */
  function GetLastReleaseInfo(read: Result<string>): (r: Result<ReleasesInfo>)
    ensures read.Err? ==> r == Err("error reading releases file: " + read.msg)
    ensures read.Ok? ==> r == ParseReleases(read.value)
  {
    match read
    case Err(e) => Err("error reading releases file: " + e)
    case Ok(data) => ParseReleases(data)
  }
}
