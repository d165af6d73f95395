/** The version-control wrapper: a clone gate around the working copy, and
    the decisions the wrapper takes between its git and GitHub calls. The
    calls themselves are represented by their outcomes, given as parameters. */
module Git {
  import opened Wrappers
  import opened Text
  import opened Environment

  /** go-git's per-file worktree status codes. */
  datatype StatusCode = Unmodified | Untracked | Modified | Added | Deleted | Renamed | Copied | UpdatedButUnmerged

  /** The worktree status: one code per changed path. */
  type Status = map<string, StatusCode>

  /** A pull request as GitHub lists it. */
  datatype PullRequest = PullRequest(number: int, title: string, headRef: string)

  /** What a tree diff reports a change to be. */
  datatype Action = Insert | Delete | Modify

  /** One change of a tree diff: its action (or the error computing it) and
      the name of the file it leads to. */
  datatype Change = Change(action: Result<Action>, toName: string)

  /** The commit hashes of the workflow event payload. */
  datatype Payload = Payload(before: string, after: string)

  /** The outcome of a fetch; being up to date already is not an error. */
  datatype FetchStatus = Fetched | AlreadyUpToDate | FetchErr(cause: string)

  /** The pull-request call the wrapper issues: an edit of the existing pull
      request, or a new one from `head` into `base`. */
  datatype PRRequest =
    | EditPR(number: int, body: string)
    | CreatePR(title: string, body: string, head: string, base: string, maintainerCanModify: bool)

  const NotCloned := "repo not cloned"
  const PRTitlePrefix := "chore: speakeasy sdk regeneration - "
  const BranchPrefix := "speakeasy-sdk-regen-"
  const GenYaml := "gen.yaml"
  const BranchRefPrefix := "refs/heads/"
  const CommitPrefix := "ci: regenerated with OpenAPI Doc "
  // The commit message spells the CLI "Speakeay".
  const CommitMid := ", Speakeay CLI "
  const ChangelogMarker := "\n\n\n## CHANGELOG\n\n"
  const BodyStart := "# Generated by Speakeasy CLI\nBased on:\n- OpenAPI Doc "
  const CliUrl := "https://github.com/speakeasy-api/speakeasy"

  /* ---------------------------------------------------------------------
     Names
     --------------------------------------------------------------------- */

  /** getRepo: the last '/'-separated part of GITHUB_REPOSITORY. */
  function RepoName(env: Env): (r: string)
    ensures '/' !in r
    ensures |r| <= |GetRepo(env)| && r == GetRepo(env)[|GetRepo(env)| - |r|..]
    ensures |r| < |GetRepo(env)| ==> GetRepo(env)[|GetRepo(env)| - |r| - 1] == '/'
  {
    var p := GetRepo(env);
    match LastIndexOf(p, '/')
    case None => p
    case Some(k) => p[k + 1..]
  }

  /** An `owner/name` repository gives back its name. */
  lemma RepoNameOf(env: Env, owner: string, name: string)
    requires GetRepo(env) == owner + "/" + name && '/' !in name
    ensures RepoName(env) == name
  {
    var p, r := GetRepo(env), RepoName(env);
    assert p[|p| - |name| - 1] == '/' && p[|p| - |name|..] == name;

  }

  /** getPRTitle: the fixed title prefix followed by the workflow's name. */
  function PRTitle(env: Env): (t: string)
    ensures HasPrefix(t, PRTitlePrefix) && t[|PRTitlePrefix|..] == GetWorkflowName(env)
  {
    PRTitlePrefix + GetWorkflowName(env)
  }

  /** Two workflows share a pull-request title only when they share a name. */
  lemma PRTitleInjective(e1: Env, e2: Env)
    requires PRTitle(e1) == PRTitle(e2)
    ensures GetWorkflowName(e1) == GetWorkflowName(e2)
  {
    assert PRTitle(e1)[|PRTitlePrefix|..] == PRTitle(e2)[|PRTitlePrefix|..];
  }

  /** The name of a branch created at a Unix time, in seconds. */
  function NewBranchName(unixSeconds: int): string {
    BranchPrefix + IntToDecimal(unixSeconds)
  }

  /** A created branch's name holds the time it was created at, so branches
      created at different seconds have different names. */
  lemma NewBranchNameRoundTrip(unixSeconds: int)
    ensures HasPrefix(NewBranchName(unixSeconds), BranchPrefix)
    ensures DecimalToInt(NewBranchName(unixSeconds)[|BranchPrefix|..]) == unixSeconds
  {
    PrefixOfConcat(BranchPrefix, IntToDecimal(unixSeconds));
    IntToDecimalRoundTrip(unixSeconds);
  }

  lemma NewBranchNameInjective(t1: int, t2: int)
    requires NewBranchName(t1) == NewBranchName(t2)
    ensures t1 == t2
  {
    NewBranchNameRoundTrip(t1);
    NewBranchNameRoundTrip(t2);
  }

  /** The full reference name of a branch. */
  function BranchRef(branchName: string): string {
    BranchRefPrefix + branchName
  }

  /** The refspec fetching a remote branch into the local branch of the same name. */
  function FetchRefSpec(branchName: string): string {
    BranchRef(branchName) + ":" + BranchRef(branchName)
  }

  /** The refspec pushing nothing into a remote branch, which deletes it. */
  function DeleteRefSpec(branchName: string): string {
    ":" + BranchRef(branchName)
  }

  /** A refspec's source and destination, either side of its last ':'. */
  function RefSpecSides(spec: string): (r: Option<(string, string)>)
    ensures r.None? <==> ':' !in spec
    ensures r.Some? ==> spec == r.value.0 + ":" + r.value.1 && ':' !in r.value.1
  {
    match LastIndexOf(spec, ':')
    case None => None
    case Some(k) =>
      assert spec == spec[..k] + ":" + spec[k + 1..];
      Some((spec[..k], spec[k + 1..]))
  }

  lemma BranchRefNoColon(branchName: string)
    requires ':' !in branchName
    ensures ':' !in BranchRef(branchName)
  {
    assert ':' !in BranchRefPrefix;
  }

  /** The fetch refspec maps a branch onto itself. */
  lemma FetchRefSpecSides(branchName: string)
    requires ':' !in branchName
    ensures RefSpecSides(FetchRefSpec(branchName)) == Some((BranchRef(branchName), BranchRef(branchName)))
  {
    var b := BranchRef(branchName);
    BranchRefNoColon(branchName);
    var r := RefSpecSides(FetchRefSpec(branchName));
    assert ':' in FetchRefSpec(branchName) by {
      assert FetchRefSpec(branchName)[|b|] == ':';
    }
    SplitAtOnlyColon(b, b, r.value.0, r.value.1);
  }

  /** The delete refspec has an empty source and the branch as destination. */
  lemma DeleteRefSpecSides(branchName: string)
    requires ':' !in branchName
    ensures RefSpecSides(DeleteRefSpec(branchName)) == Some(("", BranchRef(branchName)))
  {
    var b := BranchRef(branchName);
    BranchRefNoColon(branchName);
    var r := RefSpecSides(DeleteRefSpec(branchName));
    assert ':' in DeleteRefSpec(branchName) by {
      assert DeleteRefSpec(branchName)[0] == ':';
    }
    SplitAtOnlyColon("", b, r.value.0, r.value.1);
  }

  /** Text with a single ':' splits there and nowhere else. */
  lemma SplitAtOnlyColon(a: string, b: string, x: string, y: string)
    requires ':' !in a && ':' !in b && ':' !in y
    requires a + ":" + b == x + ":" + y
    ensures x == a && y == b
  {
    var s := a + ":" + b;
    assert s[|x|] == ':' && s[|a|] == ':';
    assert x == s[..|a|] && a == s[..|a|];
    assert y == s[|a| + 1..] && b == s[|a| + 1..];
  }

  /** The message of the regeneration commit. */
  function CommitMessage(docVersion: string, speakeasyVersion: string): string {
    CommitPrefix + docVersion + CommitMid + speakeasyVersion
  }

  /** The commit message shows both versions, at fixed places. */
  lemma CommitMessageFields(docVersion: string, speakeasyVersion: string)
    ensures var m := CommitMessage(docVersion, speakeasyVersion);
      HasPrefix(m, CommitPrefix) && m[|CommitPrefix|..|CommitPrefix| + |docVersion|] == docVersion
      && m[|m| - |speakeasyVersion|..] == speakeasyVersion
  {
    var m := CommitMessage(docVersion, speakeasyVersion);
    PrefixOfConcat(CommitPrefix, docVersion + CommitMid + speakeasyVersion);
    assert m == CommitPrefix + (docVersion + CommitMid + speakeasyVersion);
  }

  /* ---------------------------------------------------------------------
     Pull-request body
     --------------------------------------------------------------------- */

  /** The changelog as the body shows it: under its own heading when it has
      any text that is not white space, as it is otherwise. */
  function ChangelogSection(changelog: string): string {
    if TrimSpace(changelog) != "" then ChangelogMarker + changelog else changelog
  }

  /** The body of the regeneration pull request. */
  function PRBody(docVersion: string, docLocation: string, speakeasyVersion: string, generationVersion: string,
                  changelog: string): string
  {
    BodyHead(docVersion, docLocation, speakeasyVersion, generationVersion) + ChangelogSection(changelog)
  }

  /** The body up to the changelog: the document and the generator it was built with. */
  function BodyHead(docVersion: string, docLocation: string, speakeasyVersion: string, generationVersion: string): string {
    BodyStart + docVersion + " " + docLocation + "\n- Speakeasy CLI " + speakeasyVersion
    + " (" + generationVersion + ") " + CliUrl
  }

  lemma Group10(a: string, b: string, c: string, d: string, e: string, f: string, g: string, h: string, i: string,
                j: string)
    ensures a + b + c + d + e + f + g + h + i + j == (a + b + c) + (d + e + f + g + h + i + j)
  {
  }

  /** The changelog heading is added exactly when the changelog holds text
      other than white space, and the changelog always ends the body. */
  lemma ChangelogSectionLaw(changelog: string)
    ensures HasPrefix(ChangelogSection(changelog), ChangelogMarker) <==> TrimSpace(changelog) != ""
    ensures |changelog| <= |ChangelogSection(changelog)|
    ensures ChangelogSection(changelog)[|ChangelogSection(changelog)| - |changelog|..] == changelog
  {
    TrimSpaceEmptyIffBlank(changelog);
    var s := ChangelogSection(changelog);
    if TrimSpace(changelog) != "" {
      PrefixOfConcat(ChangelogMarker, changelog);
    } else if |ChangelogMarker| <= |s| {
      assert s[..|ChangelogMarker|][3] == s[3] && IsSpace(s[3]) && !IsSpace(ChangelogMarker[3]);
    }
  }

  /** The body starts with the generator heading and the document's version,
      and ends with the changelog. */
  lemma PRBodyShape(docVersion: string, docLocation: string, speakeasyVersion: string, generationVersion: string,
                    changelog: string)
    ensures var b := PRBody(docVersion, docLocation, speakeasyVersion, generationVersion, changelog);
      HasPrefix(b, BodyStart + docVersion + " ") && |changelog| <= |b| && b[|b| - |changelog|..] == changelog
  {
    var rest := docLocation + "\n- Speakeasy CLI " + speakeasyVersion + " (" + generationVersion + ") " + CliUrl;
    Group10(BodyStart, docVersion, " ", docLocation, "\n- Speakeasy CLI ", speakeasyVersion, " (", generationVersion, ") ", CliUrl);
    ChangelogSectionLaw(changelog);
    HeadThenSection(BodyStart + docVersion + " ", rest, ChangelogSection(changelog), changelog,
      PRBody(docVersion, docLocation, speakeasyVersion, generationVersion, changelog));
  }

  /** A text made of a start, a middle and a section ending in `c` starts
      with the start and ends with `c`. */
  lemma HeadThenSection(p: string, rest: string, sec: string, c: string, b: string)
    requires b == p + rest + sec && |c| <= |sec| && sec[|sec| - |c|..] == c
    ensures HasPrefix(b, p) && |c| <= |b| && b[|b| - |c|..] == c
  {
    Assoc(p, rest, sec);
    PrefixOfConcat(p, rest + sec);
    SuffixOfConcat(p + rest, sec, c);
  }

  /** A suffix of the second part is a suffix of the whole. */
  lemma SuffixOfConcat(a: string, b: string, c: string)
    requires |c| <= |b| && b[|b| - |c|..] == c
    ensures |c| <= |a + b| && (a + b)[|a + b| - |c|..] == c
  {
    assert (a + b)[|a + b| - |c|..] == b[|b| - |c|..];
  }

  /* ---------------------------------------------------------------------
     Search for the existing pull request
     --------------------------------------------------------------------- */

  /** The index of the first pull request titled `title`. */
  function FirstTitled(prs: seq<PullRequest>, title: string): (r: Option<nat>)
    ensures r.Some? ==> r.value < |prs| && prs[r.value].title == title
    ensures r.Some? ==> forall j :: 0 <= j < r.value ==> prs[j].title != title
    ensures r.None? ==> forall j :: 0 <= j < |prs| ==> prs[j].title != title
    decreases |prs|
  {
    if prs == [] then None
    else if prs[0].title == title then Some(0)
    else
      match FirstTitled(prs[1..], title)
      case None => None
      case Some(k) => Some(k + 1)
  }

  /* ---------------------------------------------------------------------
     Dirty check
     --------------------------------------------------------------------- */

  /** The directory prefix paths are compared with: the cleaned directory, or
      nothing for the current directory. */
  function DirPrefix(cleanedDir: string): string {
    if cleanedDir == "." then "" else cleanedDir
  }

  /** A path the check looks at: not a generator config file, and under the directory. */
  predicate Counted(f: string, prefix: string) {
    !Contains(f, GenYaml) && HasPrefix(f, prefix)
  }

  /** A file added, deleted or new: dirty without looking at the diff. */
  predicate FileChange(s: StatusCode) {
    s == Added || s == Deleted || s == Untracked
  }

  /** A file whose content changed: dirty only if the diff is significant. */
  predicate ContentChange(s: StatusCode) {
    s == Modified || s == Renamed || s == Copied || s == UpdatedButUnmerged
  }

  predicate FileChangeAt(st: Status, f: string, prefix: string) {
    f in st && Counted(f, prefix) && FileChange(st[f])
  }

  predicate ContentChangeAt(st: Status, f: string, prefix: string) {
    f in st && Counted(f, prefix) && ContentChange(st[f])
  }

  ghost predicate AnyFileChange(st: Status, prefix: string) {
    exists f :: FileChangeAt(st, f, prefix)
  }

  ghost predicate AnyContentChange(st: Status, prefix: string) {
    exists f :: ContentChangeAt(st, f, prefix)
  }

  /** Whether the directory is dirty: any counted file added, deleted or new
      decides it; otherwise, with a counted content change, the diff decides
      it (or its error is reported); with neither, it is clean. */
  ghost function DirtyVerdict(st: Status, prefix: string, diff: Result<string>, significant: string -> bool): Result<bool> {
    if AnyFileChange(st, prefix) then Ok(true)
    else if !AnyContentChange(st, prefix) then Ok(false)
    else if diff.Err? then Err("error running git diff: " + diff.msg)
    else Ok(significant(diff.value))
  }

  /** A path the check does not count never changes its verdict, whatever its status. */
  lemma UncountedIgnored(st: Status, prefix: string, f: string, s: StatusCode, diff: Result<string>,
                         significant: string -> bool)
    requires !Counted(f, prefix)
    ensures DirtyVerdict(st[f := s], prefix, diff, significant) == DirtyVerdict(st, prefix, diff, significant)
  {
    forall g
      ensures FileChangeAt(st[f := s], g, prefix) == FileChangeAt(st, g, prefix)
      ensures ContentChangeAt(st[f := s], g, prefix) == ContentChangeAt(st, g, prefix)
    {
    }
    if AnyFileChange(st[f := s], prefix) {
      var g :| FileChangeAt(st[f := s], g, prefix);
      assert FileChangeAt(st, g, prefix);
    }
    if AnyFileChange(st, prefix) {
      var g :| FileChangeAt(st, g, prefix);
      assert FileChangeAt(st[f := s], g, prefix);
    }
    if AnyContentChange(st[f := s], prefix) {
      var g :| ContentChangeAt(st[f := s], g, prefix);
      assert ContentChangeAt(st, g, prefix);
    }
    if AnyContentChange(st, prefix) {
      var g :| ContentChangeAt(st, g, prefix);
      assert ContentChangeAt(st[f := s], g, prefix);
    }
  }

  /** For the current directory every path but a generator config file counts. */
  lemma CurrentDirCountsAll(f: string)
    ensures Counted(f, DirPrefix(".")) <==> !Contains(f, GenYaml)
  {
    assert f[..0] == "";
  }

  /** A renamed or copied file alone leaves the verdict to the diff. */
  lemma MovedFileNeedsDiff(f: string, s: StatusCode, prefix: string, diff: Result<string>, significant: string -> bool)
    requires Counted(f, prefix) && (s == Renamed || s == Copied)
    ensures DirtyVerdict(map[f := s], prefix, diff, significant) ==
      if diff.Err? then Err("error running git diff: " + diff.msg) else Ok(significant(diff.value))
  {
    var st := map[f := s];
    assert ContentChangeAt(st, f, prefix);
    forall g
      ensures !FileChangeAt(st, g, prefix)
    {
    }
  }

  /** A counted file that is new, added or deleted makes the directory dirty
      whatever else the status holds and whatever the diff says. */
  lemma FileChangeDecides(st: Status, f: string, prefix: string, diff: Result<string>, significant: string -> bool)
    requires FileChangeAt(st, f, prefix)
    ensures DirtyVerdict(st, prefix, diff, significant) == Ok(true)
  {
  }

  /* ---------------------------------------------------------------------
     Files of the pushed commits
     --------------------------------------------------------------------- */

  /** The files a diff leads to, in change order, leaving out deleted ones;
      the first change whose action cannot be computed is an error. */
  function CommittedNames(changes: seq<Change>): Result<seq<string>>
    decreases |changes|
  {
    if changes == [] then Ok([])
    else
      match changes[0].action
      case Err(e) => Err("failed to get change action: " + e)
      case Ok(a) =>
        var rest := CommittedNames(changes[1..]);
        if rest.Err? then rest
        else Ok((if a == Delete then [] else [changes[0].toName]) + rest.value)
  }

  /** The listing fails exactly when some change's action cannot be
      computed, and lists at most one file per change. */
  lemma {:induction false} CommittedNamesOkIff(changes: seq<Change>)
    ensures CommittedNames(changes).Ok? <==> forall i :: 0 <= i < |changes| ==> changes[i].action.Ok?
    ensures CommittedNames(changes).Ok? ==> |CommittedNames(changes).value| <= |changes|
    decreases |changes|
  {
    if changes != [] {
      CommittedNamesOkIff(changes[1..]);
      assert forall i :: 1 <= i < |changes| ==> changes[i] == changes[1..][i - 1];
    }
  }

  /** A change is kept when its action is known and is not a deletion. */
  predicate Kept(c: Change) {
    c.action.Ok? && c.action.value != Delete
  }

  /** A name is listed exactly when some kept change leads to it. */
  lemma {:induction false} CommittedNamesMembers(changes: seq<Change>, n: string)
    requires CommittedNames(changes).Ok?
    ensures n in CommittedNames(changes).value <==> exists i :: 0 <= i < |changes| && Kept(changes[i]) && changes[i].toName == n
    decreases |changes|
  {
    if changes != [] {
      CommittedNamesMembers(changes[1..], n);
      if exists i :: 0 <= i < |changes| && Kept(changes[i]) && changes[i].toName == n {
        var i :| 0 <= i < |changes| && Kept(changes[i]) && changes[i].toName == n;
        if i > 0 {
          assert changes[1..][i - 1] == changes[i];
        }
      }
      if exists i :: 0 <= i < |changes[1..]| && Kept(changes[1..][i]) && changes[1..][i].toName == n {
        var i :| 0 <= i < |changes[1..]| && Kept(changes[1..][i]) && changes[1..][i].toName == n;
        assert changes[i + 1] == changes[1..][i];
      }
    }
  }

  /** Listing the changes of two diffs one after the other. */
  lemma {:induction false} CommittedNamesAppend(a: seq<Change>, b: seq<Change>)
    ensures CommittedNames(a + b) ==
      if CommittedNames(a).Err? then CommittedNames(a)
      else if CommittedNames(b).Err? then CommittedNames(b)
      else Ok(CommittedNames(a).value + CommittedNames(b).value)
    decreases |a|
  {
    if a == [] {
      assert a + b == b;
      if CommittedNames(b).Ok? {
        assert [] + CommittedNames(b).value == CommittedNames(b).value;
      }
    } else {
      assert (a + b)[0] == a[0] && (a + b)[1..] == a[1..] + b;
      CommittedNamesAppend(a[1..], b);
      var x, y := CommittedNames(a[1..]), CommittedNames(b);
      match a[0].action {
        case Err(e) =>
          assert CommittedNames(a + b) == Err("failed to get change action: " + e);
        case Ok(k) =>
          var h: seq<string> := if k == Delete then [] else [a[0].toName];
          if x.Err? {
            assert CommittedNames(a + b) == x;
          } else if y.Err? {
            assert CommittedNames(a + b) == y;
          } else {
            assert CommittedNames(a + b) == Ok(h + (x.value + y.value));
            assert CommittedNames(a) == Ok(h + x.value);
            assert h + (x.value + y.value) == h + x.value + y.value;
          }
      }
    }
  }

  /** One change more at the end of a diff. */
  lemma CommittedNamesSnoc(a: seq<Change>, c: Change)
    requires CommittedNames(a).Ok?
    ensures c.action.Err? ==> CommittedNames(a + [c]) == Err("failed to get change action: " + c.action.msg)
    ensures c.action.Ok? ==>
      CommittedNames(a + [c]) == Ok(CommittedNames(a).value + (if c.action.value == Delete then [] else [c.toName]))
  {
    CommittedNamesAppend(a, [c]);
    CommittedNamesOne(c);
  }

  lemma CommittedNamesOne(c: Change)
    ensures c.action.Err? ==> CommittedNames([c]) == Err("failed to get change action: " + c.action.msg)
    ensures c.action.Ok? ==> CommittedNames([c]) == Ok(if c.action.value == Delete then [] else [c.toName])
  {
    assert [c][1..] == [];
    assert [c][0] == c;
    if c.action.Ok? {
      var h: seq<string> := if c.action.value == Delete then [] else [c.toName];
      assert h + [] == h;
    }
  }

  /** A diff whose prefix lists cleanly and whose next change has no action
      stops with that change's error. */
  lemma CommittedNamesStops(changes: seq<Change>, i: nat)
    requires i < |changes| && CommittedNames(changes[..i]).Ok? && changes[i].action.Err?
    ensures CommittedNames(changes) == Err("failed to get change action: " + changes[i].action.msg)
  {
    assert changes == changes[..i] + changes[i..];
    CommittedNamesAppend(changes[..i], changes[i..]);
  }

  /* ---------------------------------------------------------------------
     The wrapper
     --------------------------------------------------------------------- */

  class Git {
    /** Whether CloneRepo has set the repository; every guarded operation
        refuses to run before. */
    var cloned: bool
    const accessToken: string

    /** New: a wrapper with no repository yet. */
    constructor(accessToken: string)
      ensures !cloned && this.accessToken == accessToken
    {
      this.accessToken := accessToken;
      cloned := false;
    }

    /** CloneRepo: the only operation that sets the repository, and only
        when building the repository URL and cloning both succeed. */
    method CloneRepo(join: IoStatus, clone: IoStatus) returns (err: Option<string>)
      modifies this
      ensures join.IoErr? ==> err == Some("failed to construct repo url: " + join.cause) && cloned == old(cloned)
      ensures join.IoOk? && clone.IoErr? ==> err == Some("failed to clone repo: " + clone.cause) && cloned == old(cloned)
      ensures join.IoOk? && clone.IoOk? ==> err == None && cloned
    {
      if join.IoErr? {
        return Some("failed to construct repo url: " + join.cause);
      }
      if clone.IoErr? {
        return Some("failed to clone repo: " + clone.cause);
      }
      cloned := true;
      return None;
    }

    /** CheckDirDirty, visiting the status entries in the order `order` (Go's
        map order, which is unspecified): the verdict is the same whatever
        the order. */
    method CheckDirDirty(cleanedDir: string, worktree: IoStatus, status: Result<Status>, order: seq<string>,
                         diff: Result<string>, significant: string -> bool) returns (r: Result<bool>)
      requires status.Ok? ==> forall f :: f in status.value <==> f in order
      ensures !cloned ==> r == Err(NotCloned)
      ensures cloned && worktree.IoErr? ==> r == Err("error getting worktree: " + worktree.cause)
      ensures cloned && worktree.IoOk? && status.Err? ==> r == Err("error getting status: " + status.msg)
      ensures cloned && worktree.IoOk? && status.Ok? ==>
        r == DirtyVerdict(status.value, DirPrefix(cleanedDir), diff, significant)
    {
      if !cloned {
        return Err(NotCloned);
      }
      if worktree.IoErr? {
        return Err("error getting worktree: " + worktree.cause);
      }
      if status.Err? {
        return Err("error getting status: " + status.msg);
      }
      var st := status.value;
      var prefix := DirPrefix(cleanedDir);
      var changesFound, fileChangesFound := false, false;
      for i := 0 to |order|
        invariant fileChangesFound <==> exists j :: 0 <= j < i && FileChangeAt(st, order[j], prefix)
        invariant changesFound <==> exists j :: 0 <= j < i && ContentChangeAt(st, order[j], prefix)
      {
        var f := order[i];
        if Contains(f, GenYaml) {
          continue;
        }
        if HasPrefix(f, prefix) {
          var s := st[f];
          if FileChange(s) {
            assert FileChangeAt(st, f, prefix);
            fileChangesFound := true;
          } else if ContentChange(s) {
            assert ContentChangeAt(st, f, prefix);
            changesFound := true;
          }
          if changesFound && fileChangesFound {
            break;
          }
        }
      }
      if fileChangesFound {
        return Ok(true);
      }
      assert !AnyFileChange(st, prefix) by {
        forall f | f in st
          ensures !FileChangeAt(st, f, prefix)
        {
          var j :| 0 <= j < |order| && order[j] == f;
        }
      }
      if !changesFound {
        assert !AnyContentChange(st, prefix) by {
          forall f | f in st
            ensures !ContentChangeAt(st, f, prefix)
          {
            var j :| 0 <= j < |order| && order[j] == f;
          }
        }
        return Ok(false);
      }
      if diff.Err? {
        return Err("error running git diff: " + diff.msg);
      }
      return Ok(significant(diff.value));
    }

    /** FindExistingPR: the first listed pull request carrying the
        workflow's title, refused when the caller expects another branch;
        the caller's branch and no pull request when none carries it. */
    method FindExistingPR(branchName: string, env: Env, listed: Result<seq<PullRequest>>)
      returns (r: Result<(string, Option<PullRequest>)>)
      ensures !cloned ==> r == Err(NotCloned)
      ensures cloned && listed.Err? ==> r == Err("error getting pull requests: " + listed.msg)
      ensures cloned && listed.Ok? && FirstTitled(listed.value, PRTitle(env)).None? ==> r == Ok((branchName, None))
      ensures cloned && listed.Ok? && FirstTitled(listed.value, PRTitle(env)).Some? ==>
        var p := listed.value[FirstTitled(listed.value, PRTitle(env)).value];
        if branchName != "" && p.headRef != branchName
        then r == Err("existing PR has different branch name: " + p.headRef + " than expected: " + branchName)
        else r == Ok((p.headRef, Some(p)))
      ensures r.Ok? && branchName != "" ==> r.value.0 == branchName
      ensures r.Ok? && r.value.1.Some? ==> r.value.1.value.title == PRTitle(env)
    {
      if !cloned {
        return Err(NotCloned);
      }
      if listed.Err? {
        return Err("error getting pull requests: " + listed.msg);
      }
      var prs := listed.value;
      var title := PRTitle(env);
      for i := 0 to |prs|
        invariant forall j :: 0 <= j < i ==> prs[j].title != title
      {
        var p := prs[i];
        if p.title == title {
          if branchName != "" && p.headRef != branchName {
            return Err("existing PR has different branch name: " + p.headRef + " than expected: " + branchName);
          }
          return Ok((p.headRef, Some(p)));
        }
      }
      return Ok((branchName, None));
    }

    /** FindBranch: fetches the remote branch into the local one of the same
        name and checks it out; the branch's own name when every step succeeds. */
    method FindBranch(branchName: string, worktree: IoStatus, remote: IoStatus, fetch: string -> FetchStatus,
                      checkout: (string, bool) -> IoStatus) returns (r: Result<string>)
      ensures !cloned ==> r == Err(NotCloned)
      ensures cloned && worktree.IoErr? ==> r == Err("error getting worktree: " + worktree.cause)
      ensures cloned && worktree.IoOk? && remote.IoErr? ==> r == Err("error getting remote: " + remote.cause)
      ensures cloned && worktree.IoOk? && remote.IoOk? && fetch(FetchRefSpec(branchName)).FetchErr? ==>
        r == Err("error fetching remote: " + fetch(FetchRefSpec(branchName)).cause)
      ensures cloned && worktree.IoOk? && remote.IoOk? && !fetch(FetchRefSpec(branchName)).FetchErr?
              && checkout(BranchRef(branchName), false).IoErr? ==>
        r == Err("error checking out branch: " + checkout(BranchRef(branchName), false).cause)
      ensures r.Ok? <==> cloned && worktree.IoOk? && remote.IoOk? && !fetch(FetchRefSpec(branchName)).FetchErr?
                         && checkout(BranchRef(branchName), false).IoOk?
      ensures r.Ok? ==> r.value == branchName
    {
      if !cloned {
        return Err(NotCloned);
      }
      if worktree.IoErr? {
        return Err("error getting worktree: " + worktree.cause);
      }
      if remote.IoErr? {
        return Err("error getting remote: " + remote.cause);
      }
      var fetched := fetch(FetchRefSpec(branchName));
      if fetched.FetchErr? {
        return Err("error fetching remote: " + fetched.cause);
      }
      var checkedOut := checkout(BranchRef(branchName), false);
      if checkedOut.IoErr? {
        return Err("error checking out branch: " + checkedOut.cause);
      }
      return Ok(branchName);
    }

    /** FindOrCreateBranch: the named branch when a name is given, otherwise
        a new branch named after the current Unix time. */
    method FindOrCreateBranch(branchName: string, unixSeconds: int, worktree: IoStatus, remote: IoStatus,
                              fetch: string -> FetchStatus, checkout: (string, bool) -> IoStatus)
      returns (r: Result<string>)
      ensures !cloned ==> r == Err(NotCloned)
      ensures cloned && worktree.IoErr? ==> r == Err("error getting worktree: " + worktree.cause)
      ensures cloned && worktree.IoOk? && branchName != "" && remote.IoErr? ==>
        r == Err("error getting remote: " + remote.cause)
      ensures cloned && worktree.IoOk? && branchName != "" && remote.IoOk? && fetch(FetchRefSpec(branchName)).FetchErr? ==>
        r == Err("error fetching remote: " + fetch(FetchRefSpec(branchName)).cause)
      ensures cloned && worktree.IoOk? && branchName != "" && remote.IoOk? && !fetch(FetchRefSpec(branchName)).FetchErr?
              && checkout(BranchRef(branchName), false).IoErr? ==>
        r == Err("error checking out branch: " + checkout(BranchRef(branchName), false).cause)
      ensures cloned && worktree.IoOk? && branchName != "" ==>
        (r.Ok? <==> remote.IoOk? && !fetch(FetchRefSpec(branchName)).FetchErr? && checkout(BranchRef(branchName), false).IoOk?)
      ensures cloned && worktree.IoOk? && branchName == "" ==>
        var created := NewBranchName(unixSeconds);
        r == if checkout(BranchRef(created), true).IoOk? then Ok(created)
             else Err("error checking out branch: " + checkout(BranchRef(created), true).cause)
      ensures r.Ok? && branchName != "" ==> r.value == branchName
      ensures r.Ok? && branchName == "" ==> r.value == NewBranchName(unixSeconds)
    {
      if !cloned {
        return Err(NotCloned);
      }
      if worktree.IoErr? {
        return Err("error getting worktree: " + worktree.cause);
      }
      if branchName != "" {
        r := FindBranch(branchName, worktree, remote, fetch, checkout);
        return;
      }
      var created := NewBranchName(unixSeconds);
      var checkedOut := checkout(BranchRef(created), true);
      if checkedOut.IoErr? {
        return Err("error checking out branch: " + checkedOut.cause);
      }
      return Ok(created);
    }

    /** DeleteBranch: pushes the delete refspec of the branch to the remote. */
    method DeleteBranch(branchName: string, remote: IoStatus, push: string -> IoStatus) returns (err: Option<string>)
      ensures !cloned ==> err == Some(NotCloned)
      ensures cloned && remote.IoErr? ==> err == Some("error getting remote: " + remote.cause)
      ensures cloned && remote.IoOk? ==>
        err == if push(DeleteRefSpec(branchName)).IoOk? then None
               else Some("error deleting branch: " + push(DeleteRefSpec(branchName)).cause)
    {
      if !cloned {
        return Some(NotCloned);
      }
      if remote.IoErr? {
        return Some("error getting remote: " + remote.cause);
      }
      var pushed := push(DeleteRefSpec(branchName));
      if pushed.IoErr? {
        return Some("error deleting branch: " + pushed.cause);
      }
      return None;
    }

    /** CommitAndPush: stages everything, commits with the regeneration
        message and pushes; the new commit's hash. */
    method CommitAndPush(docVersion: string, speakeasyVersion: string, worktree: IoStatus, add: IoStatus,
                         commit: string -> Result<string>, push: IoStatus) returns (r: Result<string>)
      ensures !cloned ==> r == Err(NotCloned)
      ensures cloned && worktree.IoErr? ==> r == Err("error getting worktree: " + worktree.cause)
      ensures cloned && worktree.IoOk? && add.IoErr? ==> r == Err("error adding changes: " + add.cause)
      ensures cloned && worktree.IoOk? && add.IoOk? && commit(CommitMessage(docVersion, speakeasyVersion)).Err? ==>
        r == Err("error committing changes: " + commit(CommitMessage(docVersion, speakeasyVersion)).msg)
      ensures cloned && worktree.IoOk? && add.IoOk? && commit(CommitMessage(docVersion, speakeasyVersion)).Ok? ==>
        r == if push.IoOk? then commit(CommitMessage(docVersion, speakeasyVersion))
             else Err("error pushing changes: " + push.cause)
    {
      if !cloned {
        return Err(NotCloned);
      }
      if worktree.IoErr? {
        return Err("error getting worktree: " + worktree.cause);
      }
      if add.IoErr? {
        return Err("error adding changes: " + add.cause);
      }
      var hash := commit(CommitMessage(docVersion, speakeasyVersion));
      if hash.Err? {
        return Err("error committing changes: " + hash.msg);
      }
      if push.IoErr? {
        return Err("error pushing changes: " + push.cause);
      }
      return hash;
    }

    /** MergeBranch: checks out the workflow's ref, merges the branch into it
        and pushes; the resulting head's hash. */
    method MergeBranch(branchName: string, env: Env, worktree: IoStatus, checkout: (string, bool) -> IoStatus,
                       merge: string -> Result<string>, head: Result<string>, push: IoStatus) returns (r: Result<string>)
      ensures !cloned ==> r == Err(NotCloned)
      ensures cloned && worktree.IoErr? ==> r == Err("error getting worktree: " + worktree.cause)
      ensures cloned && worktree.IoOk? && checkout(GetRef(env), false).IoErr? ==>
        r == Err("error checking out branch: " + checkout(GetRef(env), false).cause)
      ensures cloned && worktree.IoOk? && checkout(GetRef(env), false).IoOk? && merge(branchName).Err? ==>
        r == Err("error merging branch: " + merge(branchName).msg)
      ensures cloned && worktree.IoOk? && checkout(GetRef(env), false).IoOk? && merge(branchName).Ok? ==>
        r == if head.Err? then Err("error getting head ref: " + head.msg)
             else if push.IoErr? then Err("error pushing changes: " + push.cause)
             else head
    {
      if !cloned {
        return Err(NotCloned);
      }
      if worktree.IoErr? {
        return Err("error getting worktree: " + worktree.cause);
      }
      var checkedOut := checkout(GetRef(env), false);
      if checkedOut.IoErr? {
        return Err("error checking out branch: " + checkedOut.cause);
      }
      var merged := merge(branchName);
      if merged.Err? {
        return Err("error merging branch: " + merged.msg);
      }
      if head.Err? {
        return Err("error getting head ref: " + head.msg);
      }
      if push.IoErr? {
        return Err("error pushing changes: " + push.cause);
      }
      return head;
    }

    /** CreateOrUpdatePR: the body from the release's versions and the
        changelog; an edit of the existing pull request, or a new one from
        the branch into the workflow's ref under the workflow's title. */
    method CreateOrUpdatePR(branchName: string, docVersion: string, docLocation: string, speakeasyVersion: string,
                            generationVersion: string, previousGenVersion: string, env: Env,
                            changelog: (string, string) -> Result<string>, pr: Option<PullRequest>, send: IoStatus)
      returns (r: Result<PRRequest>)
      ensures changelog(generationVersion, previousGenVersion).Err? ==>
        r == Err("failed to get changelog: " + changelog(generationVersion, previousGenVersion).msg)
      ensures changelog(generationVersion, previousGenVersion).Ok? ==>
        var body := PRBody(docVersion, docLocation, speakeasyVersion, generationVersion,
                           changelog(generationVersion, previousGenVersion).value);
        if pr.Some? then
          r == if send.IoOk? then Ok(EditPR(pr.value.number, body)) else Err("failed to update PR: " + send.cause)
        else
          r == if send.IoOk? then Ok(CreatePR(PRTitle(env), body, branchName, GetRef(env), true))
               else Err("failed to create PR: " + send.cause)
    {
      var log := changelog(generationVersion, previousGenVersion);
      if log.Err? {
        return Err("failed to get changelog: " + log.msg);
      }
      var body := PRBody(docVersion, docLocation, speakeasyVersion, generationVersion, log.value);
      if pr.Some? {
        if send.IoErr? {
          return Err("failed to update PR: " + send.cause);
        }
        return Ok(EditPR(pr.value.number, body));
      } else {
        if send.IoErr? {
          return Err("failed to create PR: " + send.cause);
        }
        return Ok(CreatePR(PRTitle(env), body, branchName, GetRef(env), true));
      }
    }

    /** GetCommitedFiles: the files the pushed commits lead to, deleted
        files left out, in diff order. It does not check the clone gate: the
        repository is only used once the payload names an `after` commit. */
    method GetCommitedFiles(env: Env, read: Result<string>, decode: string -> Result<Payload>,
                            diff: (string, string) -> Result<seq<Change>>) returns (r: Result<seq<string>>)
      requires cloned || GetWorkflowEventPayloadPath(env) == "" || read.Err? || decode(read.value).Err?
               || decode(read.value).value.after == ""
      ensures GetWorkflowEventPayloadPath(env) == "" ==> r == Err("no workflow event payload path")
      ensures GetWorkflowEventPayloadPath(env) != "" && read.Err? ==>
        r == Err("failed to read workflow event payload: " + read.msg)
      ensures GetWorkflowEventPayloadPath(env) != "" && read.Ok? && decode(read.value).Err? ==>
        r == Err("failed to unmarshal workflow event payload: " + decode(read.value).msg)
      ensures GetWorkflowEventPayloadPath(env) != "" && read.Ok? && decode(read.value).Ok? ==>
        var p := decode(read.value).value;
        r == if p.after == "" then Err("no commit hash found in workflow event payload")
             else if diff(p.before, p.after).Err? then Err(diff(p.before, p.after).msg)
             else CommittedNames(diff(p.before, p.after).value)
    {
      if GetWorkflowEventPayloadPath(env) == "" {
        return Err("no workflow event payload path");
      }
      if read.Err? {
        return Err("failed to read workflow event payload: " + read.msg);
      }
      var payload := decode(read.value);
      if payload.Err? {
        return Err("failed to unmarshal workflow event payload: " + payload.msg);
      }
      var p := payload.value;
      if p.after == "" {
        return Err("no commit hash found in workflow event payload");
      }
      var changes := diff(p.before, p.after);
      if changes.Err? {
        return Err(changes.msg);
      }
      var cs := changes.value;
      var files: seq<string> := [];
      for i := 0 to |cs|
        invariant CommittedNames(cs[..i]) == Ok(files)
      {
        var change := cs[i];
        assert cs[..i + 1] == cs[..i] + [change];
        CommittedNamesSnoc(cs[..i], change);
        if change.action.Err? {
          CommittedNamesStops(cs, i);
          return Err("failed to get change action: " + change.action.msg);
        }
        if change.action.value == Delete {
          assert files + [] == files;
          continue;
        }
        files := files + [change.toName];
      }
      assert cs[..|cs|] == cs;
      return Ok(files);
    }
  }
}
