/**
 * The configuration pipeline of the `Tasks` class in src/Tasks.php: how the
 * project properties are resolved from defaults, the environment and git
 * (`getProjectProperties`), and how `configure` overlays command-line
 * options, patches the Pressflow settings, keeps a hash salt and rebuilds
 * `.env` from `.env.dist`. The Pantheon helpers that read the result sit at
 * the end.
 *
 * The process environment (after `.env` or `.env.dist` has been loaded into
 * it), `json_decode` and `json_encode` are fixed for a run and are constant
 * fields of the object; git's answer and the random salt are parameters.
 */
module RoboDrupal {
  import opened PhpValue
  import opened PhpString
  import opened Pressflow
  import opened Environment
  import opened Configuration

  /** The defaults table that `getProjectProperties` starts from (src/Tasks.php:599-607). */
  const ProjectDefaults: map<string, string> := map[
    "project" := "",
    "hash_salt" := "",
    "config_dir" := "",
    "host_repo" := "",
    "install_profile" := "standard",
    "admin_name" := "admin",
    "prod_branch" := "main"]

  /** `strtoupper('TS_' . $key)`: the variable that may override a default. */
  function EnvVarName(key: string): string {
    Upper("TS_" + key)
  }

  /** The variables the walk reads for the keys that `configure` writes back to `.env.dist` and `.env`. */
  lemma EnvVarNames()
    ensures EnvVarName("working_dir") == "TS_WORKING_DIR"
    ensures EnvVarName("hash_salt") == "TS_HASH_SALT"
    ensures EnvVarName("prod_branch") == "TS_PROD_BRANCH"
    ensures EnvVarName("install_profile") == "TS_INSTALL_PROFILE"
  {
  }

  /** A default after the `array_walk`: the `TS_` variable's value when truthy, the default otherwise. */
  function Overridden(env: map<string, string>, key: string, default: string): string {
    if EnvTruthy(env, EnvVarName(key)) then env[EnvVarName(key)] else default
  }

  /** `web_root`: the working directory, or `TS_WEB_ROOT` beneath it when that is truthy. */
  function WebRoot(env: map<string, string>, workingDir: string): string {
    if EnvTruthy(env, "TS_WEB_ROOT") then workingDir + "/" + env["TS_WEB_ROOT"] else workingDir
  }

  /** Storing a key twice keeps only the second value. */
  lemma UpdateTwice<K, V>(m: map<K, V>, k: K, a: V, b: V)
    ensures m[k := a][k := b] == m[k := b]
  {
  }

  /** The table the `array_walk` visits: the defaults and the working directory (src/Tasks.php:599-609). */
  function InitialProperties(workingDir: string): map<string, string> {
    ProjectDefaults["working_dir" := workingDir]
  }

  /** The `array_walk` with its closure (src/Tasks.php:618-623): a truthy `TS_` variable replaces its key's value. */
  function Walk(env: map<string, string>, props: Props): Props {
    map k | k in props :: if EnvTruthy(env, EnvVarName(k)) then Str(env[EnvVarName(k)]) else props[k]
  }

  /** The properties after the `array_walk`. */
  function WalkedProperties(env: map<string, string>, workingDir: string): Props {
    var initial := InitialProperties(workingDir);
    Walk(env, map k | k in initial :: Str(initial[k]))
  }

  /** The database keys, from the `PRESSFLOW_SETTINGS` blob, `TS_DB_NAME`, or project and branch (src/Tasks.php:647-661). */
  function WithDbName(located: Props, env: map<string, string>, jsonDecode: string -> Value): Props {
    if EnvTruthy(env, "PRESSFLOW_SETTINGS") then
      var dbSettings := At(jsonDecode(env["PRESSFLOW_SETTINGS"]), DefaultDb);
      located["db-name" := At(dbSettings, ["database"])]
             ["db-user" := At(dbSettings, ["username"])]
             ["db-pass" := At(dbSettings, ["password"])]
    else if EnvTruthy(env, "TS_DB_NAME") then
      located["db-name" := Str(env["TS_DB_NAME"])]
    else
      located["db-name" := Str(ReplaceDashes(ToPhpString(Prop(located, "project")) + "_" + ToPhpString(Prop(located, "branch"))))]
  }

  /** The properties once `web_root` and `escaped_web_root_path` are added (src/Tasks.php:625-632). */
  function LocatedProperties(env: map<string, string>, workingDir: string): Props {
    var walked := WalkedProperties(env, workingDir);
    var webRoot := WebRoot(env, ToPhpString(Prop(walked, "working_dir")));
    walked["web_root" := Str(webRoot)]["escaped_web_root_path" := Str(EscapeArg(webRoot))]
  }

  /** The properties `getProjectProperties` returns, step by step as src/Tasks.php:597-664 builds them. */
  function ResolvedProperties(env: map<string, string>, workingDir: string, gitOutput: string,
                              jsonDecode: string -> Value): Props
  {
    var located := LocatedProperties(env, workingDir);
    var branched := if IsSet(located, "branch") then located else located["branch" := Str(Trim(gitOutput))];
    WithDbName(branched, env, jsonDecode)
  }

  /** The working directory after the walk: `TS_WORKING_DIR` when truthy, the process's directory otherwise. */
  function WorkingDir(env: map<string, string>, workingDir: string): string {
    Overridden(env, "working_dir", workingDir)
  }

  /** The keys `getProjectProperties` sets: the defaults, the derived keys, and user and password from a blob. */
  predicate IsResolvedKey(env: map<string, string>, k: string) {
    || k in ProjectDefaults
    || k == "working_dir" || k == "web_root" || k == "escaped_web_root_path" || k == "branch" || k == "db-name"
    || (EnvTruthy(env, "PRESSFLOW_SETTINGS") && (k == "db-user" || k == "db-pass"))
  }

  /** The table before the walk, as `getProjectProperties` builds it. */
  lemma InitialValues(workingDir: string)
    ensures (map k | k in ProjectDefaults :: Str(ProjectDefaults[k]))["working_dir" := Str(workingDir)]
         == map k | k in InitialProperties(workingDir) :: Str(InitialProperties(workingDir)[k])
  {
  }

  /** The walked table has the defaults and `working_dir` as its keys. */
  lemma WalkedKeys(env: map<string, string>, workingDir: string)
    ensures forall k :: k in WalkedProperties(env, workingDir) <==> k in ProjectDefaults || k == "working_dir"
  {
  }

  /** A walked default holds its default unless its `TS_` variable is truthy. */
  lemma WalkedDefault(env: map<string, string>, workingDir: string, k: string)
    requires k in ProjectDefaults
    ensures k in WalkedProperties(env, workingDir)
    ensures WalkedProperties(env, workingDir)[k] == Str(Overridden(env, k, ProjectDefaults[k]))
  {
    DefaultKeyNames(k);
  }

  /** The walk applies to `working_dir` as well: `TS_WORKING_DIR` overrides it. */
  lemma WalkedWorkingDir(env: map<string, string>, workingDir: string)
    ensures "working_dir" in WalkedProperties(env, workingDir)
    ensures WalkedProperties(env, workingDir)["working_dir"] == Str(WorkingDir(env, workingDir))
  {
  }

  /** The web root and its escaped form, as the step after the walk stores them. */
  lemma LocatedWebRoot(env: map<string, string>, workingDir: string)
    ensures "web_root" in LocatedProperties(env, workingDir)
    ensures LocatedProperties(env, workingDir)["web_root"] == Str(WebRoot(env, WorkingDir(env, workingDir)))
    ensures "escaped_web_root_path" in LocatedProperties(env, workingDir)
    ensures LocatedProperties(env, workingDir)["escaped_web_root_path"] == Str(EscapeArg(WebRoot(env, WorkingDir(env, workingDir))))
  {
    WalkedWorkingDir(env, workingDir);
    var walked := WalkedProperties(env, workingDir);
    assert ToPhpString(Prop(walked, "working_dir")) == WorkingDir(env, workingDir);
  }

  /** The step after the walk adds the web root and its escaped form, computed from the walked `working_dir`. */
  lemma LocatedFromWalked(env: map<string, string>, workingDir: string)
    ensures var webRoot := WebRoot(env, WorkingDir(env, workingDir));
      LocatedProperties(env, workingDir)
        == WalkedProperties(env, workingDir)["web_root" := Str(webRoot)]["escaped_web_root_path" := Str(EscapeArg(webRoot))]
  {
    WalkedWorkingDir(env, workingDir);
  }

  /** The table once git's branch is added. */
  function Branched(env: map<string, string>, workingDir: string, gitOutput: string): Props {
    LocatedProperties(env, workingDir)["branch" := Str(Trim(gitOutput))]
  }

  /** What the default keys are not. */
  lemma DefaultKeyNames(k: string)
    requires k in ProjectDefaults
    ensures k != "working_dir" && k != "web_root" && k != "escaped_web_root_path" && k != "branch"
    ensures k != "db-name" && k != "db-user" && k != "db-pass"
  {
  }

  /** None of the keys added after the walk is a walked key. */
  lemma AddedKeysFresh(env: map<string, string>, workingDir: string)
    ensures "web_root" !in WalkedProperties(env, workingDir)
    ensures "escaped_web_root_path" !in WalkedProperties(env, workingDir)
    ensures "branch" !in WalkedProperties(env, workingDir)
  {
    WalkedKeys(env, workingDir);
  }

  /** A walked key other than the three added ones keeps its walked value in `Branched`. */
  lemma BranchedKeeps(env: map<string, string>, workingDir: string, gitOutput: string, k: string)
    requires k in WalkedProperties(env, workingDir)
    requires k != "web_root" && k != "escaped_web_root_path" && k != "branch"
    ensures k in Branched(env, workingDir, gitOutput)
    ensures Branched(env, workingDir, gitOutput)[k] == WalkedProperties(env, workingDir)[k]
  {
    var walked := WalkedProperties(env, workingDir);
    var webRoot := WebRoot(env, ToPhpString(Prop(walked, "working_dir")));
    UpdatesKeep(walked, "web_root", Str(webRoot), "escaped_web_root_path", Str(EscapeArg(webRoot)), "branch", Str(Trim(gitOutput)), k);
  }

  /** Three stores to other keys leave a key's value as it was. */
  lemma UpdatesKeep(m: Props, a: string, x: Value, b: string, y: Value, c: string, z: Value, k: string)
    requires k in m && k != a && k != b && k != c
    ensures k in m[a := x][b := y][c := z] && m[a := x][b := y][c := z][k] == m[k]
  {
  }

  /** The two keys the derived database name is built from. */
  lemma BranchedProjectAndBranch(env: map<string, string>, workingDir: string, gitOutput: string)
    ensures Prop(Branched(env, workingDir, gitOutput), "project") == Str(Overridden(env, "project", ""))
    ensures Prop(Branched(env, workingDir, gitOutput), "branch") == Str(Trim(gitOutput))
  {
    DefaultProject();
    WalkedDefault(env, workingDir, "project");
    BranchedKeeps(env, workingDir, gitOutput, "project");
  }

  /** The project name defaults to the empty string. */
  lemma DefaultProject()
    ensures "project" in ProjectDefaults && ProjectDefaults["project"] == ""
  {
  }

  /** `branch` is not set before git is asked, while `project` is. */
  lemma BranchedFromLocated(env: map<string, string>, workingDir: string, gitOutput: string)
    ensures !IsSet(LocatedProperties(env, workingDir), "branch")
    ensures "project" in Branched(env, workingDir, gitOutput) && "branch" in Branched(env, workingDir, gitOutput)
  {
    AddedKeysFresh(env, workingDir);
    WalkedDefault(env, workingDir, "project");
    DefaultKeyNames("project");
  }

  /** `branch` is never among the walked keys, so git is always asked and the database step starts from `Branched`. */
  lemma ResolvedFromBranched(env: map<string, string>, workingDir: string, gitOutput: string, jsonDecode: string -> Value)
    ensures ResolvedProperties(env, workingDir, gitOutput, jsonDecode)
         == WithDbName(Branched(env, workingDir, gitOutput), env, jsonDecode)
  {
    BranchedFromLocated(env, workingDir, gitOutput);
  }

  /** The database step adds its keys and nothing else. */
  lemma WithDbNameKeys(located: Props, env: map<string, string>, jsonDecode: string -> Value)
    ensures forall k :: k in WithDbName(located, env, jsonDecode) <==>
      k in located || k == "db-name" || (EnvTruthy(env, "PRESSFLOW_SETTINGS") && (k == "db-user" || k == "db-pass"))
  {
  }

  /** The database step leaves every other key as it was. */
  lemma WithDbNameKeeps(located: Props, env: map<string, string>, jsonDecode: string -> Value, k: string)
    requires k in located && k != "db-name" && k != "db-user" && k != "db-pass"
    ensures k in WithDbName(located, env, jsonDecode) && WithDbName(located, env, jsonDecode)[k] == located[k]
  {
  }

  /** Without a blob or `TS_DB_NAME`, the database name is derived from `project` and `branch`. */
  lemma WithDbNameDerived(located: Props, env: map<string, string>, jsonDecode: string -> Value)
    requires !EnvTruthy(env, "PRESSFLOW_SETTINGS") && !EnvTruthy(env, "TS_DB_NAME")
    ensures "db-name" in WithDbName(located, env, jsonDecode)
    ensures WithDbName(located, env, jsonDecode)["db-name"]
         == Str(ReplaceDashes(ToPhpString(Prop(located, "project")) + "_" + ToPhpString(Prop(located, "branch"))))
  {
  }

  /** A key that the database step does not write keeps its value from `Branched`. */
  lemma ResolvedKeeps(env: map<string, string>, workingDir: string, gitOutput: string, jsonDecode: string -> Value, k: string)
    requires k in Branched(env, workingDir, gitOutput) && k != "db-name" && k != "db-user" && k != "db-pass"
    ensures k in ResolvedProperties(env, workingDir, gitOutput, jsonDecode) && ResolvedProperties(env, workingDir, gitOutput, jsonDecode)[k] == Branched(env, workingDir, gitOutput)[k]
  {
    ResolvedFromBranched(env, workingDir, gitOutput, jsonDecode);
    WithDbNameKeeps(Branched(env, workingDir, gitOutput), env, jsonDecode, k);
  }

  /** The keys `getProjectProperties` returns. */
  lemma ResolvedKeys(env: map<string, string>, workingDir: string, gitOutput: string, jsonDecode: string -> Value)
    ensures forall k :: k in ResolvedProperties(env, workingDir, gitOutput, jsonDecode) <==> IsResolvedKey(env, k)
  {
    ResolvedFromBranched(env, workingDir, gitOutput, jsonDecode);
    WalkedKeys(env, workingDir);
    WithDbNameKeys(Branched(env, workingDir, gitOutput), env, jsonDecode);
  }

  /** Every default holds its value, or its `TS_` variable's when that is truthy. */
  lemma ResolvedDefault(env: map<string, string>, workingDir: string, gitOutput: string, jsonDecode: string -> Value, k: string)
    requires k in ProjectDefaults
    ensures k in ResolvedProperties(env, workingDir, gitOutput, jsonDecode) && ResolvedProperties(env, workingDir, gitOutput, jsonDecode)[k] == Str(Overridden(env, k, ProjectDefaults[k]))
  {
    WalkedDefault(env, workingDir, k);
    DefaultKeyNames(k);
    BranchedKeeps(env, workingDir, gitOutput, k);
    ResolvedKeeps(env, workingDir, gitOutput, jsonDecode, k);
  }

  /**
   * The salt a run reads back: once `TS_HASH_SALT` is a truthy variable of
   * the environment (as the line `configure` appends to `.env.dist` makes
   * it, after Dotenv loads the file), it is the resolved `hash_salt`.
   */
  lemma SaltReadBack(env: map<string, string>, workingDir: string, gitOutput: string, jsonDecode: string -> Value)
    requires "TS_HASH_SALT" in env && StrTruthy(env["TS_HASH_SALT"])
    ensures "hash_salt" in ResolvedProperties(env, workingDir, gitOutput, jsonDecode)
    ensures ResolvedProperties(env, workingDir, gitOutput, jsonDecode)["hash_salt"] == Str(env["TS_HASH_SALT"])
  {
    EnvVarNames();
    ResolvedDefault(env, workingDir, gitOutput, jsonDecode, "hash_salt");
  }

  /**
   * A later run of `configure` on a fresh object, whose environment holds the
   * persisted `TS_HASH_SALT`, keeps that salt and appends no salt line, unless
   * an option replaces the salt.
   */
  lemma SaltKeptAcrossRuns(env: map<string, string>, workingDir: string, gitOutput: string, jsonDecode: string -> Value,
                           opts: seq<(string, Value)>, freshSalt: string, files: map<string, string>)
    requires "TS_HASH_SALT" in env && StrTruthy(env["TS_HASH_SALT"]) && NoOptionFor(opts, "hash_salt")
    ensures var resolved := ResolvedProperties(env, workingDir, gitOutput, jsonDecode);
      Prop(ConfiguredProperties(resolved, opts, freshSalt), "hash_salt") == Str(env["TS_HASH_SALT"])
    ensures var resolved := ResolvedProperties(env, workingDir, gitOutput, jsonDecode);
      FilesAfterSalt(files, ApplyOptions(resolved, opts), freshSalt) == files
  {
    var resolved := ResolvedProperties(env, workingDir, gitOutput, jsonDecode);
    SaltReadBack(env, workingDir, gitOutput, jsonDecode);
    SaltKept(resolved, opts, freshSalt, files);
  }

  /** `working_dir` is the process's directory unless `TS_WORKING_DIR` is truthy. */
  lemma ResolvedWorkingDir(env: map<string, string>, workingDir: string, gitOutput: string, jsonDecode: string -> Value)
    ensures "working_dir" in ResolvedProperties(env, workingDir, gitOutput, jsonDecode) && ResolvedProperties(env, workingDir, gitOutput, jsonDecode)["working_dir"] == Str(WorkingDir(env, workingDir))
  {
    WalkedWorkingDir(env, workingDir);
    BranchedKeeps(env, workingDir, gitOutput, "working_dir");
    ResolvedKeeps(env, workingDir, gitOutput, jsonDecode, "working_dir");
  }

  /** `web_root` is the working directory, or `TS_WEB_ROOT` beneath it when that is truthy. */
  lemma ResolvedWebRoot(env: map<string, string>, workingDir: string, gitOutput: string, jsonDecode: string -> Value)
    ensures "web_root" in ResolvedProperties(env, workingDir, gitOutput, jsonDecode) && ResolvedProperties(env, workingDir, gitOutput, jsonDecode)["web_root"] == Str(WebRoot(env, WorkingDir(env, workingDir)))
  {
    LocatedWebRoot(env, workingDir);
    assert Branched(env, workingDir, gitOutput)["web_root"] == LocatedProperties(env, workingDir)["web_root"];
    ResolvedKeeps(env, workingDir, gitOutput, jsonDecode, "web_root");
  }

  /** `escaped_web_root_path` is the web root passed through `escapeArg`. */
  lemma ResolvedEscapedWebRoot(env: map<string, string>, workingDir: string, gitOutput: string, jsonDecode: string -> Value)
    ensures "escaped_web_root_path" in ResolvedProperties(env, workingDir, gitOutput, jsonDecode)
    ensures ResolvedProperties(env, workingDir, gitOutput, jsonDecode)["escaped_web_root_path"] == Str(EscapeArg(WebRoot(env, WorkingDir(env, workingDir))))
  {
    LocatedWebRoot(env, workingDir);
    assert Branched(env, workingDir, gitOutput)["escaped_web_root_path"]
        == LocatedProperties(env, workingDir)["escaped_web_root_path"];
    ResolvedKeeps(env, workingDir, gitOutput, jsonDecode, "escaped_web_root_path");
  }

  /** `branch` is always git's trimmed answer: a `TS_BRANCH` in the environment is never read into it. */
  lemma ResolvedBranch(env: map<string, string>, workingDir: string, gitOutput: string, jsonDecode: string -> Value)
    ensures "branch" in ResolvedProperties(env, workingDir, gitOutput, jsonDecode) && ResolvedProperties(env, workingDir, gitOutput, jsonDecode)["branch"] == Str(Trim(gitOutput))
  {
    ResolvedKeeps(env, workingDir, gitOutput, jsonDecode, "branch");
  }

  /** With a truthy `PRESSFLOW_SETTINGS`, name, user and password come from the blob's default connection. */
  lemma ResolvedDbFromBlob(env: map<string, string>, workingDir: string, gitOutput: string, jsonDecode: string -> Value)
    ensures EnvTruthy(env, "PRESSFLOW_SETTINGS") ==>
      var blob := jsonDecode(env["PRESSFLOW_SETTINGS"]);
      && "db-name" in ResolvedProperties(env, workingDir, gitOutput, jsonDecode) && ResolvedProperties(env, workingDir, gitOutput, jsonDecode)["db-name"] == At(blob, DbField("database"))
      && "db-user" in ResolvedProperties(env, workingDir, gitOutput, jsonDecode) && ResolvedProperties(env, workingDir, gitOutput, jsonDecode)["db-user"] == At(blob, DbField("username"))
      && "db-pass" in ResolvedProperties(env, workingDir, gitOutput, jsonDecode) && ResolvedProperties(env, workingDir, gitOutput, jsonDecode)["db-pass"] == At(blob, DbField("password"))
  {
    if EnvTruthy(env, "PRESSFLOW_SETTINGS") {
      ResolvedFromBranched(env, workingDir, gitOutput, jsonDecode);
      WithDbNameFromBlob(Branched(env, workingDir, gitOutput), env, jsonDecode);
    }
  }

  /** With a truthy `PRESSFLOW_SETTINGS`, the database step copies the blob's default connection fields. */
  lemma WithDbNameFromBlob(located: Props, env: map<string, string>, jsonDecode: string -> Value)
    requires EnvTruthy(env, "PRESSFLOW_SETTINGS")
    ensures var blob := jsonDecode(env["PRESSFLOW_SETTINGS"]);
      && "db-name" in WithDbName(located, env, jsonDecode) && WithDbName(located, env, jsonDecode)["db-name"] == At(blob, DbField("database"))
      && "db-user" in WithDbName(located, env, jsonDecode) && WithDbName(located, env, jsonDecode)["db-user"] == At(blob, DbField("username"))
      && "db-pass" in WithDbName(located, env, jsonDecode) && WithDbName(located, env, jsonDecode)["db-pass"] == At(blob, DbField("password"))
  {
    var blob := jsonDecode(env["PRESSFLOW_SETTINGS"]);
    AtSplit(blob, DefaultDb, ["database"]);
    AtSplit(blob, DefaultDb, ["username"]);
    AtSplit(blob, DefaultDb, ["password"]);
  }

  /** Otherwise a truthy `TS_DB_NAME` is the database name. */
  lemma ResolvedDbFromEnv(env: map<string, string>, workingDir: string, gitOutput: string, jsonDecode: string -> Value)
    ensures !EnvTruthy(env, "PRESSFLOW_SETTINGS") && EnvTruthy(env, "TS_DB_NAME") ==>
      "db-name" in ResolvedProperties(env, workingDir, gitOutput, jsonDecode) && ResolvedProperties(env, workingDir, gitOutput, jsonDecode)["db-name"] == Str(env["TS_DB_NAME"])
  {
    ResolvedFromBranched(env, workingDir, gitOutput, jsonDecode);
  }

  /** Otherwise the database name is `project_branch` with every dash made an underscore. */
  lemma ResolvedDbDerived(env: map<string, string>, workingDir: string, gitOutput: string, jsonDecode: string -> Value)
    ensures !EnvTruthy(env, "PRESSFLOW_SETTINGS") && !EnvTruthy(env, "TS_DB_NAME") ==>
      && "db-name" in ResolvedProperties(env, workingDir, gitOutput, jsonDecode)
      && ResolvedProperties(env, workingDir, gitOutput, jsonDecode)["db-name"] == Str(ReplaceDashes(Overridden(env, "project", "") + "_" + Trim(gitOutput)))
  {
    if !EnvTruthy(env, "PRESSFLOW_SETTINGS") && !EnvTruthy(env, "TS_DB_NAME") {
      ResolvedFromBranched(env, workingDir, gitOutput, jsonDecode);
      BranchedProjectAndBranch(env, workingDir, gitOutput);
      WithDbNameDerived(Branched(env, workingDir, gitOutput), env, jsonDecode);
    }
  }

  /** A derived database name never holds a dash. */
  lemma ResolvedDbDerivedNoDash(env: map<string, string>, workingDir: string, gitOutput: string, jsonDecode: string -> Value)
    ensures !EnvTruthy(env, "PRESSFLOW_SETTINGS") && !EnvTruthy(env, "TS_DB_NAME") ==>
      '-' !in ToPhpString(Prop(ResolvedProperties(env, workingDir, gitOutput, jsonDecode), "db-name"))
  {
    ResolvedDbDerived(env, workingDir, gitOutput, jsonDecode);
  }

  /** Two appends to a file in a row add both texts, in order. */
  lemma AppendAgain(files: map<string, string>, name: string, a: string, b: string)
    ensures var once := files[name := Contents(files, name) + a];
      once[name := Contents(once, name) + b] == files[name := Contents(files, name) + (a + b)]
  {
    assert Contents(files, name) + a + b == Contents(files, name) + (a + b);
  }

  /** `terminus_env` is neither of the keys it is computed from. */
  lemma TerminusEnvKeyApart()
    ensures "terminus_env" != "branch" && "terminus_env" != "prod-branch"
  {
  }

  /** Removing `.env`, copying `.env.dist` over it and appending `generated` rebuilds it, whether or not `.env.dist` exists. */
  lemma RebuiltEnvFile(files: map<string, string>, generated: string)
    ensures var copied := if DistFile in files - {EnvFile} then (files - {EnvFile})[EnvFile := (files - {EnvFile})[DistFile]] else files - {EnvFile};
      copied[EnvFile := Contents(copied, EnvFile) + generated] == WithEnvFile(files, generated)
  {
  }

  class Tasks {
    /** `$this->projectProperties`. */
    var projectProperties: Props
    /** The working directory's files by name. */
    var files: map<string, string>
    /** The process environment, `.env` or `.env.dist` loaded into it. */
    const env: map<string, string>
    const jsonDecode: string -> Value
    const jsonEncode: Value -> string

    /** `array_walk($properties, …)` with the closure that reads `TS_` variables: each key is visited once. */
    static method ArrayWalk(env: map<string, string>, props: Props) returns (walked: Props)
      ensures walked == Walk(env, props)
    {
      walked := props;
      var unvisited := props.Keys;
      while unvisited != {}
        invariant unvisited <= props.Keys
        invariant walked.Keys == props.Keys
        invariant forall k :: k in props ==>
          walked[k] == if k in unvisited then props[k] else Walk(env, props)[k]
        decreases unvisited
      {
        var key :| key in unvisited;
        var envVar := Upper("TS_" + key);
        if envVar in env && StrTruthy(env[envVar]) {
          walked := walked[key := Str(env[envVar])];
        }
        unvisited := unvisited - {key};
      }
    }

    /** `__construct`: the properties are resolved once, when the object is made. */
    constructor (env: map<string, string>, workingDir: string, gitOutput: string,
                 jsonDecode: string -> Value, jsonEncode: Value -> string, files: map<string, string>)
      ensures projectProperties == ResolvedProperties(env, workingDir, gitOutput, jsonDecode)
      ensures this.files == files && this.env == env
      ensures this.jsonDecode == jsonDecode && this.jsonEncode == jsonEncode
    {
      var properties := GetProjectProperties(env, workingDir, gitOutput, jsonDecode);
      this.env := env;
      this.jsonDecode := jsonDecode;
      this.jsonEncode := jsonEncode;
      this.files := files;
      projectProperties := properties;
    }

    /**
     * `getProjectProperties` (src/Tasks.php:597-664). `workingDir` is
     * `getcwd()`, `env` the environment once Dotenv has loaded `.env` or
     * `.env.dist` into it, and `gitOutput` what `git symbolic-ref --short -q
     * HEAD` prints.
     */
    static method GetProjectProperties(env: map<string, string>, workingDir: string, gitOutput: string,
                                       jsonDecode: string -> Value)
      returns (properties: Props)
      ensures properties == ResolvedProperties(env, workingDir, gitOutput, jsonDecode)
    {
      properties := map k | k in ProjectDefaults :: Str(ProjectDefaults[k]);
      properties := properties["working_dir" := Str(workingDir)];
      InitialValues(workingDir);
      properties := ArrayWalk(env, properties);
      ghost var walked := WalkedProperties(env, workingDir);
      assert properties == walked;

      WalkedWorkingDir(env, workingDir);
      ghost var root := WorkingDir(env, workingDir);
      assert properties["working_dir"] == Str(root);
      if "TS_WEB_ROOT" in env && StrTruthy(env["TS_WEB_ROOT"]) {
        properties := properties["web_root" := Str(ToPhpString(properties["working_dir"]) + "/" + env["TS_WEB_ROOT"])];
      } else {
        properties := properties["web_root" := properties["working_dir"]];
      }
      assert properties == walked["web_root" := Str(WebRoot(env, root))];
      properties := properties["escaped_web_root_path" := Str(EscapeArg(ToPhpString(properties["web_root"])))];
      LocatedFromWalked(env, workingDir);
      assert properties == LocatedProperties(env, workingDir);

      BranchedFromLocated(env, workingDir, gitOutput);
      if !IsSet(properties, "branch") {
        // the current branch as git reports it
        properties := properties["branch" := Str(Trim(gitOutput))];
      }
      assert properties == Branched(env, workingDir, gitOutput);
      ResolvedFromBranched(env, workingDir, gitOutput, jsonDecode);
      properties := AddDbName(env, properties, jsonDecode);
    }

    /** The database keys of `getProjectProperties` (src/Tasks.php:647-661), added to the resolved table. */
    static method AddDbName(env: map<string, string>, located: Props, jsonDecode: string -> Value)
      returns (properties: Props)
      requires "project" in located && "branch" in located
      ensures properties == WithDbName(located, env, jsonDecode)
    {
      properties := located;
      if "PRESSFLOW_SETTINGS" in env && StrTruthy(env["PRESSFLOW_SETTINGS"]) {
        var dbSettings := At(jsonDecode(env["PRESSFLOW_SETTINGS"]), DefaultDb);
        properties := properties["db-name" := At(dbSettings, ["database"])];
        properties := properties["db-user" := At(dbSettings, ["username"])];
        properties := properties["db-pass" := At(dbSettings, ["password"])];
      } else if "TS_DB_NAME" in env && StrTruthy(env["TS_DB_NAME"]) {
        properties := properties["db-name" := Str(env["TS_DB_NAME"])];
      } else {
        properties := properties["db-name" := Str(ToPhpString(properties["project"]) + "_" + ToPhpString(properties["branch"]))];
        ghost var joined := properties["db-name"];
        properties := properties["db-name" := Str(ReplaceDashes(ToPhpString(properties["db-name"])))];
        UpdateTwice(located, "db-name", joined, properties["db-name"]);
      }
    }

    /**
     * `configure` (src/Tasks.php:104-216). `opts` are the options in the
     * order Robo passes them, with `ConfigureDefaults` for those not given, and
     * `freshSalt` stands for what `Crypt::randomBytesBase64(55)` returns.
     */
    method Configure(opts: seq<(string, Value)>, freshSalt: string)
      modifies this
      ensures projectProperties == ConfiguredProperties(old(projectProperties), opts, freshSalt)
      ensures files == ConfiguredFiles(old(files), old(projectProperties), opts, freshSalt,
                                       jsonEncode(ConfiguredSettings(BaseSettings(env, jsonDecode), projectProperties)))
    {
      var settings := DefaultPressflowSettings();
      if "DEFAULT_PRESSFLOW_SETTINGS" in env && StrTruthy(env["DEFAULT_PRESSFLOW_SETTINGS"]) {
        settings := jsonDecode(env["DEFAULT_PRESSFLOW_SETTINGS"]);
      }
      OverlayOptions(opts);
      settings := PatchDatabases(settings, projectProperties);

      KeepSalt(freshSalt);
      settings := Set(settings, SaltKey, Prop(projectProperties, "hash_salt"));
      settings := Set(settings, ConfigDirKey, Prop(projectProperties, "config_dir"));

      var branch, prodBranch := SetTerminusEnv();
      ConfiguredSettingsSteps(BaseSettings(env, jsonDecode), old(projectProperties), opts, freshSalt);
      var json := jsonEncode(settings);
      WriteEnvFile(json, branch, prodBranch);
    }

    /** The end of `configure` (src/Tasks.php:187-213): `.env` is rebuilt from `.env.dist` and the generated lines. */
    method WriteEnvFile(json: string, branch: Value, prodBranch: Value)
      requires branch == Prop(projectProperties, "branch") && prodBranch == Prop(projectProperties, "prod-branch")
      modifies this
      ensures files == WithEnvFile(old(files), GeneratedConfig(json, projectProperties))
      ensures projectProperties == old(projectProperties)
    {
      ghost var before := files;
      RemoveFile(EnvFile);
      CopyFile(DistFile, EnvFile);
      ghost var copied := files;
      var header := Line("# Generated configuration") + Line("PRESSFLOW_SETTINGS=" + json)
                    + Line("TERMINUS_ENV=" + ToPhpString(Prop(projectProperties, "terminus_env")));
      AppendToFile(EnvFile, header);
      var branchLine := Line("TS_BRANCH=" + ToPhpString(branch));
      AppendToFile(EnvFile, branchLine);
      AppendAgain(copied, EnvFile, header, branchLine);
      var prodLine := Line("TS_PROD_BRANCH=" + ToPhpString(prodBranch));
      AppendToFile(EnvFile, prodLine);
      AppendAgain(copied, EnvFile, header + branchLine, prodLine);
      var profileLine := Line("TS_INSTALL_PROFILE=" + ToPhpString(Prop(projectProperties, "install_profile")));
      AppendToFile(EnvFile, profileLine);
      AppendAgain(copied, EnvFile, header + branchLine + prodLine, profileLine);
      ghost var generated := GeneratedConfig(json, projectProperties);
      assert generated == header + branchLine + prodLine + profileLine;
      RebuiltEnvFile(before, generated);
    }

    /** The branch, the production branch, and `terminus_env` computed from them (src/Tasks.php:176-182). */
    method SetTerminusEnv() returns (branch: Value, prodBranch: Value)
      modifies this
      ensures branch == Prop(old(projectProperties), "branch") && prodBranch == Prop(old(projectProperties), "prod-branch")
      ensures projectProperties == old(projectProperties)["terminus_env" := TerminusEnv(branch, prodBranch)]
      ensures branch == Prop(projectProperties, "branch") && prodBranch == Prop(projectProperties, "prod-branch")
      ensures files == old(files)
    {
      branch := Prop(projectProperties, "branch");
      prodBranch := Prop(projectProperties, "prod-branch");
      projectProperties := projectProperties["terminus_env" := if LooseEquals(branch, prodBranch) then Str("dev") else branch];
      TerminusEnvKeyApart();
    }

    /** The `foreach` over the options (src/Tasks.php:124-132). */
    method OverlayOptions(opts: seq<(string, Value)>)
      modifies this
      ensures projectProperties == ApplyOptions(old(projectProperties), opts)
      ensures files == old(files)
    {
      for i := 0 to |opts|
        invariant projectProperties == ApplyOptions(old(projectProperties), opts[..i])
        invariant files == old(files)
      {
        var (opt, value) := opts[i];
        if value != Null {
          // A value loosely equal to "NULL" stands for an empty string, so an empty password can be given.
          var stored := value;
          if LooseEquals(value, Str("NULL")) {
            stored := Str("");
          }
          projectProperties := projectProperties[opt := stored];
        }
        assert opts[..i + 1][..i] == opts[..i];
      }
      assert opts[..|opts|] == opts;
    }

    /** The connection and upgrade steps of `configure` (src/Tasks.php:134-156), on the settings being built. */
    static method PatchDatabases(settings: Value, props: Props) returns (patched: Value)
      ensures patched == AddUpgrade(PatchConnection(settings, props), props)
    {
      patched := Set(settings, DbField("database"), Prop(props, "db-name"));
      if IsSet(props, "db-user") {
        patched := Set(patched, DbField("username"), props["db-user"]);
      }
      if IsSet(props, "db-pass") {
        patched := Set(patched, DbField("password"), props["db-pass"]);
      }
      if IsSet(props, "db-host") {
        patched := Set(patched, DbField("host"), props["db-host"]);
      }
      if IsSet(props, "db-upgrade") && !LooseEquals(props["db-upgrade"], Prop(props, "db-name")) {
        patched := Set(patched, UpgradeDb, At(patched, DefaultDbGroup));
        patched := Set(patched, UpgradeDb + ["default", "database"], props["db-upgrade"]);
      }
    }

    /** The hash salt step (src/Tasks.php:159-168): an empty salt is generated and appended to `.env.dist`. */
    method KeepSalt(freshSalt: string)
      modifies this
      ensures projectProperties == ResolveSalt(old(projectProperties), freshSalt)
      ensures files == FilesAfterSalt(old(files), old(projectProperties), freshSalt)
    {
      if IsEmpty(projectProperties, "hash_salt") {
        projectProperties := projectProperties["hash_salt" := Str(freshSalt)];
        AppendToFile(DistFile, SaltLine(freshSalt));
      }
    }

    /** `taskWriteToFile($name)->append()->line(…)->run()`: the text goes at the end, a missing file is created. */
    method AppendToFile(name: string, text: string)
      modifies this
      ensures files == old(files)[name := Contents(old(files), name) + text]
      ensures Contents(files, name) == Contents(old(files), name) + text
      ensures projectProperties == old(projectProperties)
    {
      files := files[name := Contents(files, name) + text];
    }

    /** `_remove($name)`. */
    method RemoveFile(name: string)
      modifies this
      ensures files == old(files) - {name}
      ensures projectProperties == old(projectProperties)
    {
      files := files - {name};
    }

    /**
     * `_copy($from, $to)`: nothing is copied when `$from` is missing. The
     * target is always overwritten here, whereas Robo keeps a newer existing
     * target; the only call copies onto `.env` just after it was removed, so
     * the two agree there.
     */
    method CopyFile(from: string, to: string)
      modifies this
      ensures files == if from in old(files) then old(files)[to := old(files)[from]] else old(files)
      ensures projectProperties == old(projectProperties)
    {
      if from in files {
        files := files[to := files[from]];
      }
    }
  }
}
