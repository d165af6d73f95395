# sdk-generation-action: the release ledger, the git client and the environment, in Dafny

This project models three parts of the Speakeasy SDK generation GitHub
Action:

- **The release ledger** (`pkg/releases/releases.go`). Each generation
  appends a block to `RELEASES.md`: a header naming the release version,
  the OpenAPI document's version and location, and the Speakeasy CLI
  version, then one line per published package (npm, PyPI, Go, Composer,
  Maven Central). The action later reads back the last block through a
  set of regular expressions.
  - `Releases` models the renderer, the file append, the path and the
    reader. Each regular expression becomes an explicit matcher.
  - `Matching` gives Go's `FindStringSubmatch` its leftmost-match
    meaning. It also models the lazy `.*?` scan and `\d+\.\d+\.\d+`.
  - `RoundTrip` proves the main property:
    - appending a release to any ledger and reading the ledger back
      returns the release, as far as the ledger records it;
    - this holds whenever the release's fields contain no text that
      the regular expressions would misread (`RoundTrip.Encodable`).
  - `BlockText`, `BlockLaws`, `HeaderLaws` and `LineLaws` hold the
    proof steps for the round trip:
    - each pattern reads its own line back;
    - it skips every other ecosystem's line;
    - no rendered block contains a blank line.
- **The git client** (`internal/git/git.go`).
  - `Git.Git` is a class. Its only mutable state is whether the
    repository has been cloned. Every operation refuses with
    "repo not cloned" before a clone, except the two the source does
    not guard.
  - The outcome of each call into go-git, the GitHub API, the `git`
    command line or the file system is a parameter. Examples: a
    worktree lookup that may fail, a fetch that may report "already up
    to date", a commit that returns a hash. So the model follows the
    source's exact branching and error messages.
  - The dirty-directory check is a loop proved against a
    specification (`Git.DirtyVerdict`). The same goes for the search
    for an existing pull request (`Git.FirstTitled`) and the list of
    committed files (`Git.CommittedNames`).
- **The environment** (`internal/environment/environment.go`).
  - The process environment is a map from variable name to value; an
    unset variable reads as `""`.
  - The module covers the mode and action defaults, the "is this
    language published" rules (Go is special), the git release rule,
    the debug and force flags and the base directory.

## Model

| member | source | states |
|---|---|---|
| Environment.GetMode | internal/environment/environment.go:49-56 | INPUT_MODE when set, otherwise "direct"; never empty |
| Environment.GetAction | internal/environment/environment.go:58-65 | INPUT_ACTION when set, otherwise "generate"; never empty |
| Environment.GetBaseDir | internal/environment/environment.go:25-39 | the base directory is "./" exactly when SPEAKEASY_ENVIRONMENT is "local", and "/" otherwise |
| Environment.PublishKey | internal/environment/environment.go:91-97 | "go" is governed by INPUT_CREATE_RELEASE; every other language by INPUT_PUBLISH_ followed by its upper-cased name |
| Environment.GoIgnoresPublishGo | internal/environment/environment.go:91-94 | Go counts as published iff INPUT_CREATE_RELEASE is "true"; INPUT_PUBLISH_GO has no effect on it |
| Environment.UpperGoReadsPublishGo | internal/environment/environment.go:91-97 | the special case matches "go" exactly: "GO" is read from INPUT_PUBLISH_GO |
| Environment.PublishedIgnoresCase | internal/environment/environment.go:96 | two language names other than "go" with the same upper-case form get the same answer |
| Environment.JavaPublishedIsLanguagePublished | internal/environment/environment.go:91-101 | IsJavaPublished agrees with IsLanguagePublished("java") |
| Environment.CreateGitReleaseIff | internal/environment/environment.go:79-81 | a git release is created iff INPUT_CREATE_RELEASE is "true" or PHP is published |
| Environment.ForceGenerationIff | internal/environment/environment.go:45-47 | generation is forced iff INPUT_FORCE is exactly "true"; other spellings do not count |
| Environment.DebugModeIff | internal/environment/environment.go:41-43 | debug mode iff INPUT_DEBUG is exactly "true" or RUNNER_DEBUG is exactly "1"; other spellings do not count |
| Text.LastIndexOf | pkg/releases/releases.go:60 | the position of the last occurrence of a character, or none exactly when it does not occur |
| Text.TrimSpaceEmptyIffBlank | internal/git/git.go:310 | a string trims to "" iff it is all white space |
| Text.IntToDecimalRoundTrip | internal/git/git.go:226 | the decimal form of a Unix time reads back as that time |
| Matching.FindFirst | pkg/releases/releases.go:119 | a pattern's result is the match at the leftmost position where it matches, and none when it matches nowhere |
| Matching.LazyScanFirst | pkg/releases/releases.go:95-100 | a lazy `.*?` stops at the first position where the rest of the pattern matches, and never crosses a newline unless `(?s)` is on |
| Matching.ParseVersion | pkg/releases/releases.go:95-100 | `\d+\.\d+\.\d+` reads three digit runs separated by dots, each run taken whole |
| Matching.ParseVersionComplete | pkg/releases/releases.go:95-100 | every version followed by a non-digit is read exactly |
| Releases.MavenCoordinates | pkg/releases/releases.go:59-62 | a Maven name splits at its last '.' into group and artifact; the artifact holds no '.', and joining the two with '.' gives the name back |
| Releases.UpdateReleasesFile | pkg/releases/releases.go:77-92 | an open or write failure gives its own error message; on success the file is the old ledger followed by the rendered release |
| Releases.ReleasesPath | pkg/releases/releases.go:184-188 | the ledger is repo/RELEASES.md under the base directory: "repo/RELEASES.md" locally, "/repo/RELEASES.md" otherwise |
| Releases.LastBlock | pkg/releases/releases.go:115-117 | the last part after splitting on the blank-line separator holds no separator, and it is the whole text exactly when the text holds none |
| Releases.LastBlockFollowsSeparator | pkg/releases/releases.go:115-117 | when the text holds a separator, the last part is a suffix of the text that directly follows a separator |
| Releases.MatchHeader | pkg/releases/releases.go:95 | a header match starts with "## Version " and reads a well-formed release version |
| Releases.MatchNpm | pkg/releases/releases.go:96 | the npm pattern matches only where an npm tag starts |
| Releases.MatchPypi | pkg/releases/releases.go:97 | the PyPI pattern matches only where a PyPI tag starts |
| Releases.MatchGo | pkg/releases/releases.go:98 | the Go pattern matches only where a Go tag starts |
| Releases.MatchComposer | pkg/releases/releases.go:99 | the Composer pattern matches only where a Composer tag starts |
| Releases.MatchMaven | pkg/releases/releases.go:100 | the Maven pattern matches only where a Maven Central tag starts |
| Releases.ParseBlock | pkg/releases/releases.go:119-182 | reading fails iff the header pattern matches nowhere in the block, with "error parsing last release info" |
| Releases.GetLastReleaseInfo | pkg/releases/releases.go:103-112 | a read failure gives its own error message; otherwise the result is what ParseReleases reads from the file's text |
| HeaderLaws.MatchHeaderOf | pkg/releases/releases.go:95 | the header pattern reads back the four fields of a header as String() writes it (lines 70-74) |
| LineLaws.MatchNpmLine | pkg/releases/releases.go:96 | the npm pattern reads back the URL, the package name and the path of an npm line as String() writes it (line 43) |
| LineLaws.MatchPypiLine | pkg/releases/releases.go:97 | the PyPI pattern reads back the URL, the package name and the path of a PyPI line as String() writes it (line 47) |
| LineLaws.MatchGoLine | pkg/releases/releases.go:98 | the Go pattern reads back the release URL and the path of a Go line as String() writes it (lines 50-53) |
| LineLaws.MatchComposerLine | pkg/releases/releases.go:99 | the Composer pattern reads back the URL, the package name and the path of a Composer line as String() writes it (line 56) |
| LineLaws.MatchMavenLine | pkg/releases/releases.go:100 | the Maven pattern reads back the URL, group id, artifact and path of a Maven line as String() writes it (lines 59-64), and the group id and artifact rejoin into the package name |
| BlockLaws.BlockShape | pkg/releases/releases.go:39-75 | a block is the header, then "\n### Releases" when any line follows, then each published ecosystem's line on its own line, in the fixed order npm, PyPI, Go, Composer, Maven |
| BlockLaws.FindEco | pkg/releases/releases.go:134-179 | a pattern tagged by one ecosystem skips every other ecosystem's line and finds its own line when present |
| RoundTrip.FindNpmIn | pkg/releases/releases.go:134-141 | in a rendered block, the npm pattern finds the npm line exactly when npm was published |
| RoundTrip.FindPypiIn | pkg/releases/releases.go:143-150 | in a rendered block, the PyPI pattern finds the PyPI line exactly when PyPI was published |
| RoundTrip.FindGoIn | pkg/releases/releases.go:152-158 | in a rendered block, the Go pattern finds the Go line exactly when Go was published |
| RoundTrip.FindComposerIn | pkg/releases/releases.go:160-167 | in a rendered block, the Composer pattern finds the Composer line exactly when Composer was published |
| RoundTrip.FindMavenIn | pkg/releases/releases.go:169-179 | in a rendered block, the Maven pattern finds the Maven line exactly when Java was published; the rebuilt name equals the original |
| RoundTrip.FindHeaderIn | pkg/releases/releases.go:119 | in a rendered block, the header pattern finds the four header fields |
| RoundTrip.BlockRoundTrip | pkg/releases/releases.go:119-182 | reading a rendered block gives back the release as the ledger records it |
| RoundTrip.BlockLines | pkg/releases/releases.go:39-75 | a rendered block starts with '#' and contains no blank line, so splitting on blank lines cannot cut it |
| RoundTrip.LastBlockAppend | pkg/releases/releases.go:115-117 | after any ledger, the separator and a block without blank lines, the last block is that block, at most preceded by one newline |
| RoundTrip.ParseBlockNewline | pkg/releases/releases.go:119-182 | a leading newline never changes what a block reads as |
| RoundTrip.ReadBackBlock | pkg/releases/releases.go:114-117 | reading a ledger that ends with a separator and a block reads that block alone |
| RoundTrip.ReadBackLast | pkg/releases/releases.go:114-182 | a ledger with any content followed by a rendered release reads back as that release |
| RoundTrip.UpdateThenRead | pkg/releases/releases.go:77-112 | once a release has been appended, reading the last release from the ledger gives it back |
| RoundTrip.AppendIrrelevant | pkg/releases/releases.go:114-117 | what the ledger held before a release was appended does not affect what is read back |
| RoundTrip.RenderStartsWithHeader | pkg/releases/releases.go:70-74 | a rendered release starts with the blank-line separator and the header |
| RoundTrip.SectionIffPublished | pkg/releases/releases.go:42-68 | one line per published ecosystem; the "### Releases" title appears iff some ecosystem was published |
| RoundTrip.MissingLineUnpublished | pkg/releases/releases.go:134-179 | an ecosystem reads as published iff its pattern matches; when it does not match, its fields stay empty and reading still succeeds |
| Git.RepoName | internal/git/git.go:484-488 | the repository name is the part of GITHUB_REPOSITORY after its last '/' (all of it when there is none) |
| Git.RepoNameOf | internal/git/git.go:484-488 | for "owner/name" the repository name is "name" |
| Git.PRTitle | internal/git/git.go:490-494 | the title is the fixed prefix followed by the workflow name |
| Git.PRTitleInjective | internal/git/git.go:490-494 | equal titles mean equal workflow names |
| Git.NewBranchNameRoundTrip | internal/git/git.go:226 | a new branch name is the fixed prefix followed by the Unix time, which can be read back from it |
| Git.NewBranchNameInjective | internal/git/git.go:226 | branches created at different seconds get different names |
| Git.RefSpecSides | internal/git/git.go:256-260 | a refspec splits at its last ':' into source and destination |
| Git.FetchRefSpecSides | internal/git/git.go:193 | the fetch refspec maps refs/heads/<branch> on the remote onto the local refs/heads/<branch> |
| Git.DeleteRefSpecSides | internal/git/git.go:254-260 | the delete refspec has an empty source and refs/heads/<branch> as destination |
| Git.CommitMessageFields | internal/git/git.go:284 | the commit message names the OpenAPI document version and the CLI version, in that order |
| Git.ChangelogSectionLaw | internal/git/git.go:306-313 | the changelog gets the "## CHANGELOG" heading iff it is not blank, and it always ends the section |
| Git.PRBodyShape | internal/git/git.go:314-317 | the pull-request body starts with the generator banner and the document version, and ends with the changelog |
| Git.FirstTitled | internal/git/git.go:159-171 | the index of the first pull request carrying the title, or none when none does |
| Git.UncountedIgnored | internal/git/git.go:103-108 | changes to gen.yaml files, or outside the directory, never change the verdict |
| Git.CurrentDirCountsAll | internal/git/git.go:95-108 | for the directory ".", every file except gen.yaml files is examined |
| Git.MovedFileNeedsDiff | internal/git/git.go:116-146 | a renamed or copied file alone does not make the directory dirty; the diff decides |
| Git.FileChangeDecides | internal/git/git.go:109-135 | an added, deleted or untracked file makes the directory dirty whatever the diff says |
| Git.CommittedNamesOkIff | internal/git/git.go:458-470 | listing committed files fails iff some change's action cannot be read; the list is never longer than the changes |
| Git.CommittedNamesMembers | internal/git/git.go:458-470 | a file is listed iff some change that is not a delete leads to it |
| Git.CommittedNamesAppend | internal/git/git.go:458-470 | the list for two runs of changes is the two lists joined, and the first failure wins |
| Git.CommittedNamesStops | internal/git/git.go:460-464 | the first change whose action cannot be read decides the error |
| Git.Git.constructor | internal/git/git.go:37-48 | a new client keeps the access token and has no repository |
| Git.Git.CloneRepo | internal/git/git.go:50-78 | the URL and clone failures give their messages and leave the state alone; success leaves the repository cloned |
| Git.Git.CheckDirDirty | internal/git/git.go:80-147 | before the clone, and on worktree or status failures, the matching error; otherwise the verdict of DirtyVerdict, the same for every iteration order |
| Git.Git.FindExistingPR | internal/git/git.go:149-174 | the first pull request with the workflow's title, refused when it is on another branch than the one asked for; otherwise the requested branch and no pull request |
| Git.Git.FindBranch | internal/git/git.go:176-210 | succeeds with the branch's name iff worktree, remote, fetch ("already up to date" counts as success) and checkout all succeed; each failure gives its message |
| Git.Git.FindOrCreateBranch | internal/git/git.go:212-240 | a named branch is found as FindBranch finds it, with its remote, fetch and checkout error messages; otherwise a new branch named after the Unix time is created and checked out |
| Git.Git.DeleteBranch | internal/git/git.go:242-266 | pushes the delete refspec of the branch; each failure gives its message |
| Git.Git.CommitAndPush | internal/git/git.go:268-303 | stages, commits with CommitMessage and pushes; success returns the commit hash; each failure gives its message |
| Git.Git.MergeBranch | internal/git/git.go:354-393 | checks out the ref being built, merges the branch, reads HEAD and pushes; success returns HEAD's hash; each failure gives its message |
| Git.Git.CreateOrUpdatePR | internal/git/git.go:305-352 | a changelog failure stops it; otherwise it edits the given pull request's body, or creates one with the workflow title, the branch as head, GITHUB_REF as base and maintainer edits allowed |
| Git.Git.GetCommitedFiles | internal/git/git.go:408-475 | payload path, read, decode and empty "after" failures give their messages; otherwise the result is CommittedNames of the diff between the two commits |

## Left out

- I/O, the network, go-git, the GitHub API, the `git` command line and
  `os.ReadFile` are not modelled. Each call's outcome is a parameter of
  the operation that makes it, and the model proves what the operation
  does with every outcome.
- Logging and the debug prints (`fmt.Println` at releases.go:121 and
  git.go:330) are left out, and so is the PR URL logged at
  git.go:344-349. None of them affects a result.
- Regular expressions are modelled one by one as matchers with the same
  leftmost, lazy and digit-run behaviour. No general regex engine is
  modelled.
- `path.Clean` is modelled only for its "." result, which the source
  turns into ""; any other directory is taken as already clean.
- JSON decoding of the workflow event payload is a parameter, `decode`.
- GetCommitedFiles: the five lookups of the before and after commits,
  their trees and the diff are collapsed into one outcome, `diff`. Its
  error message is whichever of the five failed first.
- `IsGitDiffSignificant` lives outside these files. It is a parameter
  of CheckDirDirty, `significant`.
- Changelog generation by the CLI is a parameter of CreateOrUpdatePR.
- GetLatestTag, which only lists tags through the GitHub API, is not
  modelled.
- `getGithubAuth` builds credentials for the transport and is not
  modelled; the token is kept on the client.
- Go map iteration order in CheckDirDirty is an explicit `order`
  parameter. The verdict is proved independent of it.
- The commit's author identity and timestamp are not modelled; the
  commit's outcome is a parameter. The clock used for new branch names
  is a parameter, `unixSeconds`.
- RoundTrip.BlockRoundTrip and the lemmas after it hold under
  `RoundTrip.Encodable`. This is a sufficient condition, not a
  characterisation of the inputs that round-trip. It requires:
  - no newline and no '[' in any field (each field is checked with
    `BlockLaws.Plain`), so a field can never look like the start of
    another release line;
  - no space in the document or CLI versions;
  - a version of the form digits.digits.digits;
  - no "/v/" in an npm name, no '/' in a PyPI or Maven name, and no
    '#' in a Composer name;
  - a '.' in every Maven name;
  - no space in GITHUB_REPOSITORY.
- Environment.PublishKey: upper-cases ASCII letters only (`Text.ToUpper`).
  Go's `strings.ToUpper` at environment.go:96 follows Unicode case
  mapping, so for a language name with non-ASCII letters the source reads
  a different INPUT_PUBLISH_ variable than the model. Unicode's case
  tables are not modelled; every language the action publishes has an
  ASCII name.
- Releases.MavenLineOf, Releases.MavenPart, Releases.ReleaseLines,
  Releases.Block, Releases.Render, Releases.UpdateReleasesFile: these
  require `Releases.CanRender`, a '.' in the Maven name when Java is
  published. Without one, `strings.LastIndex` gives -1 and the slice at
  releases.go:60-61 panics. The model excludes that input instead of
  modelling the panic.
- Releases.MavenCoordinates: requires a '.' in the name for the same
  reason; the source has no error path for a name without one.
- Git.Git.GetCommitedFiles: the source would dereference a missing
  repository once it gets past the payload checks. The model requires a
  clone on that path instead of modelling the panic.

## Notes on the code

- `String()` puts "### Releases" after a single newline, so the title
  follows the header's last line directly with no blank line between
  them (releases.go:66-74).
- An empty ledger splits into one empty part, which the header pattern
  does not match, so it gives "error parsing last release info", the
  same error as a malformed ledger (releases.go:114-125).
- A ledger file that cannot be read gives "error reading releases file: "
  followed by the cause (releases.go:107-109).
- In `CheckDirDirty`, Modified, Renamed, Copied and UpdatedButUnmerged
  files only set `changesFound`, which leaves the verdict to the diff.
  Only Added, Deleted and Untracked files make the directory dirty
  outright (git.go:109-123, 132-146).
- The commit message reads "Speakeay CLI", as spelled at git.go:284.
- `CreateOrUpdatePR` reads `DocVersion`, `DocLocation` and
  `GenerationVersion` (git.go:306, 317). `ReleasesInfo` in releases.go
  has no such fields, so the model passes them as plain strings.
- `CreateOrUpdatePR` (git.go:305) and `GetCommitedFiles` (git.go:408)
  do not test `g.repo == nil`, unlike the other repository operations.
