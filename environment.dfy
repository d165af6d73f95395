/** The action's configuration, read from environment variables. The process
    environment is an explicit map; a variable that is not set reads as the
    empty string, as os.Getenv does. */
module Environment {
  import opened Text

  type Env = map<string, string>

  /** os.Getenv */
  function Getenv(env: Env, key: string): (v: string)
    ensures key in env ==> v == env[key]
    ensures key !in env ==> v == ""
  {
    if key in env then env[key] else ""
  }

  const ModeDirect: string := "direct"
  const ModePR: string := "pr"

  const ActionGenerate: string := "generate"
  const ActionFinalize: string := "finalize"
  const ActionRelease: string := "release"

  /** INPUT_MODE, defaulting to direct mode; any other value is passed through unchecked. */
  function GetMode(env: Env): (m: string)
    ensures m != ""
    ensures Getenv(env, "INPUT_MODE") == "" ==> m == ModeDirect
    ensures Getenv(env, "INPUT_MODE") != "" ==> m == Getenv(env, "INPUT_MODE")
  {
    var mode := Getenv(env, "INPUT_MODE");
    if mode == "" then ModeDirect else mode
  }

  /** INPUT_ACTION, defaulting to generate; any other value is passed through unchecked. */
  function GetAction(env: Env): (a: string)
    ensures a != ""
    ensures Getenv(env, "INPUT_ACTION") == "" ==> a == ActionGenerate
    ensures Getenv(env, "INPUT_ACTION") != "" ==> a == Getenv(env, "INPUT_ACTION")
  {
    var action := Getenv(env, "INPUT_ACTION");
    if action == "" then ActionGenerate else action
  }

  /** The variable that says whether `lang` is published. Go releases are
      tied to INPUT_CREATE_RELEASE; every other language has its own
      INPUT_PUBLISH_<LANG>. */
  function PublishKey(lang: string): (k: string)
    ensures lang == "go" ==> k == "INPUT_CREATE_RELEASE"
    ensures lang != "go" ==> k == "INPUT_PUBLISH_" + ToUpper(lang)
  {
    if lang == "go" then "INPUT_CREATE_RELEASE" else "INPUT_PUBLISH_" + ToUpper(lang)
  }

  predicate IsLanguagePublished(env: Env, lang: string) {
    Getenv(env, PublishKey(lang)) == "true"
  }

  predicate IsJavaPublished(env: Env) {
    Getenv(env, "INPUT_PUBLISH_JAVA") == "true"
  }

  predicate CreateGitRelease(env: Env) {
    Getenv(env, "INPUT_CREATE_RELEASE") == "true" || IsLanguagePublished(env, "php")
  }

  predicate IsDebugMode(env: Env) {
    Getenv(env, "INPUT_DEBUG") == "true" || Getenv(env, "RUNNER_DEBUG") == "1"
  }

  predicate ForceGeneration(env: Env) {
    Getenv(env, "INPUT_FORCE") == "true"
  }

  /** The directory the action works under, fixed when the package is
      initialised: the current directory when run locally, the root otherwise. */
  function GetBaseDir(env: Env): (d: string)
    ensures d == "./" || d == "/"
    ensures d == "./" <==> Getenv(env, "SPEAKEASY_ENVIRONMENT") == "local"
  {
    if Getenv(env, "SPEAKEASY_ENVIRONMENT") == "local" then "./" else "/"
  }

  function GetAccessToken(env: Env): string {
    Getenv(env, "INPUT_GITHUB_ACCESS_TOKEN")
  }

  function GetWorkflowName(env: Env): string {
    Getenv(env, "GITHUB_WORKFLOW")
  }

  function GetWorkflowEventPayloadPath(env: Env): string {
    Getenv(env, "GITHUB_EVENT_PATH")
  }

  function GetBranchName(env: Env): string {
    Getenv(env, "INPUT_BRANCH_NAME")
  }

  function GetRef(env: Env): string {
    Getenv(env, "GITHUB_REF")
  }

  function GetRepo(env: Env): string {
    Getenv(env, "GITHUB_REPOSITORY")
  }

  /** Whether Go is published never depends on INPUT_PUBLISH_GO. */
  lemma GoIgnoresPublishGo(env: Env, v: string)
    ensures IsLanguagePublished(env["INPUT_PUBLISH_GO" := v], "go") == IsLanguagePublished(env, "go")
    ensures IsLanguagePublished(env, "go") <==> Getenv(env, "INPUT_CREATE_RELEASE") == "true"
  {
    assert "INPUT_PUBLISH_GO" != "INPUT_CREATE_RELEASE" by {
      assert "INPUT_PUBLISH_GO"[6] != "INPUT_CREATE_RELEASE"[6];
    }
  }

  /** The upper-case spelling "GO" is not special: it reads INPUT_PUBLISH_GO. */
  lemma UpperGoReadsPublishGo(env: Env)
    ensures IsLanguagePublished(env, "GO") <==> Getenv(env, "INPUT_PUBLISH_GO") == "true"
  {
    assert "GO"[0] != "go"[0];
    assert ToUpper("GO") == "GO";
    assert PublishKey("GO") == "INPUT_PUBLISH_GO";
  }

  /** Apart from "go", the language name is case-insensitive. */
  lemma PublishedIgnoresCase(env: Env, a: string, b: string)
    requires a != "go" && b != "go"
    requires ToUpper(a) == ToUpper(b)
    ensures IsLanguagePublished(env, a) == IsLanguagePublished(env, b)
  {
  }

  /** IsJavaPublished is IsLanguagePublished for "java". */
  lemma JavaPublishedIsLanguagePublished(env: Env)
    ensures IsJavaPublished(env) == IsLanguagePublished(env, "java")
  {
    assert "java"[0] != "go"[0];
    assert ToUpper("java") == "JAVA";
    assert PublishKey("java") == "INPUT_PUBLISH_JAVA";
  }

  /** A git release is created exactly when INPUT_CREATE_RELEASE or INPUT_PUBLISH_PHP is "true". */
  lemma CreateGitReleaseIff(env: Env)
    ensures CreateGitRelease(env) <==>
      Getenv(env, "INPUT_CREATE_RELEASE") == "true" || Getenv(env, "INPUT_PUBLISH_PHP") == "true"
  {
    assert "php"[0] != "go"[0];
    assert ToUpper("php") == "PHP";
    assert PublishKey("php") == "INPUT_PUBLISH_PHP";
  }

  /** Generation is forced only by the exact value "true". */
  lemma ForceGenerationIff(env: Env)
    ensures ForceGeneration(env) <==> Getenv(env, "INPUT_FORCE") == "true"
    ensures Getenv(env, "INPUT_FORCE") in {"TRUE", "1", "True", ""} ==> !ForceGeneration(env)
  {
  }

  /** Debug mode is on exactly when INPUT_DEBUG is "true" or RUNNER_DEBUG is "1";
      any other spelling (such as "TRUE" or "1" for INPUT_DEBUG) leaves it off. */
  lemma DebugModeIff(env: Env)
    ensures IsDebugMode(env) <==> Getenv(env, "INPUT_DEBUG") == "true" || Getenv(env, "RUNNER_DEBUG") == "1"
    ensures Getenv(env, "RUNNER_DEBUG") != "1" && Getenv(env, "INPUT_DEBUG") in {"TRUE", "1", "True"} ==> !IsDebugMode(env)
  {
  }
}
