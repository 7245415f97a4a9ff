/**
 * What `configure` (src/Tasks.php:104-216) computes, as functions of the
 * properties, options and files it starts from: the option overlay, the
 * hash salt, `terminus_env`, and the rebuilt `.env`. The method that does
 * it step by step is `RoboDrupal.Tasks.Configure`.
 */
module Configuration {
  import opened PhpValue
  import opened Pressflow
  import opened Environment

  const EnvFile := ".env"
  const DistFile := ".env.dist"

  /** The value stored for a non-null option: anything loosely equal to `'NULL'` becomes ''. */
  function Stored(v: Value): Value {
    if LooseEquals(v, Str("NULL")) then Str("") else v
  }

  /** One pass of the `foreach` (src/Tasks.php:125-131): a null option is skipped, any other one is stored. */
  function StoreOption(props: Props, opt: (string, Value)): Props {
    if opt.1 == Null then props else props[opt.0 := Stored(opt.1)]
  }

  /** The `foreach` over the options (src/Tasks.php:124-132), in their order. */
  function ApplyOptions(props: Props, opts: seq<(string, Value)>): Props
    decreases |opts|
  {
    if opts == [] then props
    else StoreOption(ApplyOptions(props, opts[..|opts| - 1]), opts[|opts| - 1])
  }

  /** The options Robo passes when none is given on the command line: the defaults of `configure`'s signature (src/Tasks.php:104-113). */
  const ConfigureDefaults: seq<(string, Value)> := [
    ("db-pass", Null),
    ("db-user", Null),
    ("db-name", Null),
    ("db-host", Null),
    ("branch", Null),
    ("profile", Str("standard")),
    ("db-upgrade", Null),
    ("prod-branch", Str("main"))]

  /** No option in `opts` gives `key` a value. */
  predicate NoOptionFor(opts: seq<(string, Value)>, key: string) {
    forall i :: 0 <= i < |opts| && opts[i].0 == key ==> opts[i].1 == Null
  }

  /** The hash salt step (src/Tasks.php:159-168): an empty salt is replaced by the fresh one. */
  function ResolveSalt(props: Props, freshSalt: string): Props {
    if IsEmpty(props, "hash_salt") then props["hash_salt" := Str(freshSalt)] else props
  }

  /** `terminus_env` (src/Tasks.php:182): 'dev' on the production branch, the branch itself elsewhere. */
  function TerminusEnv(branch: Value, prodBranch: Value): Value {
    if LooseEquals(branch, prodBranch) then Str("dev") else branch
  }

  /** The properties after `configure`: options overlaid, salt resolved, `terminus_env` computed. */
  function ConfiguredProperties(props: Props, opts: seq<(string, Value)>, freshSalt: string): Props {
    var p := ResolveSalt(ApplyOptions(props, opts), freshSalt);
    p["terminus_env" := TerminusEnv(Prop(p, "branch"), Prop(p, "prod-branch"))]
  }

  /** The settings `configure` starts from: a truthy `DEFAULT_PRESSFLOW_SETTINGS` decoded, or the defaults. */
  function BaseSettings(env: map<string, string>, jsonDecode: string -> Value): Value {
    if EnvTruthy(env, "DEFAULT_PRESSFLOW_SETTINGS") then jsonDecode(env["DEFAULT_PRESSFLOW_SETTINGS"])
    else DefaultPressflowSettings()
  }

  /** A file's contents; a missing file reads, and is appended to, as empty. */
  function Contents(files: map<string, string>, name: string): string {
    if name in files then files[name] else ""
  }

  /** What a Robo `line()` adds to a file. */
  function Line(s: string): string {
    s + "\n"
  }

  /** The line that persists a generated salt in `.env.dist`. */
  function SaltLine(salt: string): string {
    Line("TS_HASH_SALT=\"" + salt + "\"")
  }

  /** The files after the salt step: `.env.dist` gains the salt line exactly when a salt is generated. */
  function FilesAfterSalt(files: map<string, string>, props: Props, freshSalt: string): map<string, string> {
    if IsEmpty(props, "hash_salt") then files[DistFile := Contents(files, DistFile) + SaltLine(freshSalt)] else files
  }

  /** The six lines `configure` appends to `.env`, in order (src/Tasks.php:190-213). */
  function GeneratedConfig(json: string, props: Props): string {
    Line("# Generated configuration")
    + Line("PRESSFLOW_SETTINGS=" + json)
    + Line("TERMINUS_ENV=" + ToPhpString(Prop(props, "terminus_env")))
    + Line("TS_BRANCH=" + ToPhpString(Prop(props, "branch")))
    + Line("TS_PROD_BRANCH=" + ToPhpString(Prop(props, "prod-branch")))
    + Line("TS_INSTALL_PROFILE=" + ToPhpString(Prop(props, "install_profile")))
  }

  /** `.env` rebuilt: removed, copied from `.env.dist` (if there is one), then appended to. */
  function WithEnvFile(files: map<string, string>, generated: string): map<string, string> {
    files[EnvFile := Contents(files, DistFile) + generated]
  }

  /** The files after `configure`, where `json` is the encoded settings. */
  function ConfiguredFiles(files: map<string, string>, props: Props, opts: seq<(string, Value)>, freshSalt: string,
                           json: string): map<string, string>
  {
    WithEnvFile(FilesAfterSalt(files, ApplyOptions(props, opts), freshSalt),
                GeneratedConfig(json, ConfiguredProperties(props, opts, freshSalt)))
  }

  /**
   * The settings as `configure` builds them: databases from the overlaid
   * properties, then salt and config directory once the salt is resolved.
   * The result is the settings of the final properties.
   */
  lemma ConfiguredSettingsSteps(base: Value, props: Props, opts: seq<(string, Value)>, freshSalt: string)
    ensures var applied := ApplyOptions(props, opts);
            var salted := ResolveSalt(applied, freshSalt);
      Set(Set(AddUpgrade(PatchConnection(base, applied), applied), SaltKey, Prop(salted, "hash_salt")),
          ConfigDirKey, Prop(salted, "config_dir"))
      == ConfiguredSettings(base, ConfiguredProperties(props, opts, freshSalt))
  {
    var applied := ApplyOptions(props, opts);
    var configured := ConfiguredProperties(props, opts, freshSalt);
    DatabasesReadDbKeys(base, applied, configured);
    assert Prop(configured, "hash_salt") == Prop(ResolveSalt(applied, freshSalt), "hash_salt");
    assert Prop(configured, "config_dir") == Prop(ResolveSalt(applied, freshSalt), "config_dir");
  }

  /** An option given as `'NULL'` stores '', which is how an empty password is passed; so does `true`, which PHP 8 finds loosely equal to `'NULL'`. */
  lemma StoredValues(s: string)
    ensures Stored(Str("NULL")) == Str("") && Stored(Bool(true)) == Str("")
    ensures s != "NULL" ==> Stored(Str(s)) == Str(s)
    ensures Stored(Null) == Null && Stored(Bool(false)) == Bool(false)
  {
  }

  /** A key that no option sets keeps its presence and value. */
  lemma {:induction false} OptionsKeep(props: Props, opts: seq<(string, Value)>, key: string)
    requires NoOptionFor(opts, key)
    ensures key in ApplyOptions(props, opts) <==> key in props
    ensures Prop(ApplyOptions(props, opts), key) == Prop(props, key)
    decreases |opts|
  {
    if opts != [] {
      var init := opts[..|opts| - 1];
      assert NoOptionFor(init, key) by {
        forall i | 0 <= i < |init| && init[i].0 == key
          ensures init[i].1 == Null
        {
          assert init[i] == opts[i];
        }
      }
      OptionsKeep(props, init, key);
    }
  }

  /** The last non-null option for a key decides its value. */
  lemma {:induction false} OptionsLastWins(props: Props, opts: seq<(string, Value)>, i: int)
    requires 0 <= i < |opts| && opts[i].1 != Null
    requires forall j :: i < j < |opts| && opts[j].0 == opts[i].0 ==> opts[j].1 == Null
    ensures opts[i].0 in ApplyOptions(props, opts)
    ensures ApplyOptions(props, opts)[opts[i].0] == Stored(opts[i].1)
    decreases |opts|
  {
    if i < |opts| - 1 {
      var init := opts[..|opts| - 1];
      assert init[i] == opts[i];
      assert forall j :: i < j < |init| && init[j].0 == init[i].0 ==> init[j].1 == Null by {
        forall j | i < j < |init| && init[j].0 == init[i].0
          ensures init[j].1 == Null
        {
          assert init[j] == opts[j];
        }
      }
      OptionsLastWins(props, init, i);
    }
  }

  /** The salt after `configure`: the overlaid one when non-empty, the fresh one otherwise, and so never empty when the fresh one is not. */
  lemma ConfiguredSalt(props: Props, opts: seq<(string, Value)>, freshSalt: string)
    ensures "hash_salt" in ConfiguredProperties(props, opts, freshSalt)
    ensures ConfiguredProperties(props, opts, freshSalt)["hash_salt"]
         == if IsEmpty(ApplyOptions(props, opts), "hash_salt") then Str(freshSalt)
            else ApplyOptions(props, opts)["hash_salt"]
    ensures StrTruthy(freshSalt) ==> !IsEmpty(ConfiguredProperties(props, opts, freshSalt), "hash_salt")
  {
  }

  /** A run starting from a non-empty salt keeps it and writes no salt line, unless an option replaces the salt. */
  lemma SaltKept(props: Props, opts: seq<(string, Value)>, freshSalt: string, files: map<string, string>)
    requires !IsEmpty(props, "hash_salt") && NoOptionFor(opts, "hash_salt")
    ensures Prop(ConfiguredProperties(props, opts, freshSalt), "hash_salt") == Prop(props, "hash_salt")
    ensures FilesAfterSalt(files, ApplyOptions(props, opts), freshSalt) == files
  {
    OptionsKeep(props, opts, "hash_salt");
  }

  /**
   * With no option given, `prod-branch` is 'main' and `profile` 'standard',
   * every other property is as it was, and `terminus_env` is 'dev' on the
   * branch `main`.
   */
  lemma DefaultOptions(props: Props, freshSalt: string)
    ensures Prop(ApplyOptions(props, ConfigureDefaults), "prod-branch") == Str("main")
    ensures Prop(ApplyOptions(props, ConfigureDefaults), "profile") == Str("standard")
    ensures forall key :: key != "prod-branch" && key != "profile" ==>
      Prop(ApplyOptions(props, ConfigureDefaults), key) == Prop(props, key)
    ensures Prop(props, "branch") == Str("main") ==>
      Prop(ConfiguredProperties(props, ConfigureDefaults, freshSalt), "terminus_env") == Str("dev")
  {
    var applied := ApplyOptions(props, ConfigureDefaults);
    OptionsLastWins(props, ConfigureDefaults, 7);
    OptionsLastWins(props, ConfigureDefaults, 5);
    forall key | key != "prod-branch" && key != "profile"
      ensures Prop(applied, key) == Prop(props, key)
    {
      DefaultsOnlySet(key);
      OptionsKeep(props, ConfigureDefaults, key);
    }
    ConfiguredTerminusEnv(props, ConfigureDefaults, freshSalt);
  }

  /** The defaults give a value only to `profile` and `prod-branch`. */
  lemma DefaultsOnlySet(key: string)
    requires key != "prod-branch" && key != "profile"
    ensures NoOptionFor(ConfigureDefaults, key)
  {
  }

  /** `terminus_env` is 'dev' exactly on the production branch (loosely compared) and the branch elsewhere. */
  lemma ConfiguredTerminusEnv(props: Props, opts: seq<(string, Value)>, freshSalt: string)
    ensures "terminus_env" in ConfiguredProperties(props, opts, freshSalt)
    ensures var applied := ApplyOptions(props, opts);
      ConfiguredProperties(props, opts, freshSalt)["terminus_env"]
        == if LooseEquals(Prop(applied, "branch"), Prop(applied, "prod-branch")) then Str("dev") else Prop(applied, "branch")
  {
  }

  /** Any property that no option sets, other than the salt and `terminus_env`, is as it was. */
  lemma ConfiguredKeeps(props: Props, opts: seq<(string, Value)>, freshSalt: string, key: string)
    requires key != "hash_salt" && key != "terminus_env" && NoOptionFor(opts, key)
    ensures key in ConfiguredProperties(props, opts, freshSalt) <==> key in props
    ensures Prop(ConfiguredProperties(props, opts, freshSalt), key) == Prop(props, key)
  {
    OptionsKeep(props, opts, key);
  }

  /** `.env.dist` gains the salt line when, and only when, a salt is generated; `.env` is that file followed by the generated lines. */
  lemma ConfiguredEnvFiles(files: map<string, string>, props: Props, opts: seq<(string, Value)>, freshSalt: string, json: string)
    ensures var saltLine := if IsEmpty(ApplyOptions(props, opts), "hash_salt") then SaltLine(freshSalt) else "";
      Contents(ConfiguredFiles(files, props, opts, freshSalt, json), DistFile) == Contents(files, DistFile) + saltLine
    ensures var saltLine := if IsEmpty(ApplyOptions(props, opts), "hash_salt") then SaltLine(freshSalt) else "";
      && EnvFile in ConfiguredFiles(files, props, opts, freshSalt, json)
      && ConfiguredFiles(files, props, opts, freshSalt, json)[EnvFile]
         == Contents(files, DistFile) + saltLine + GeneratedConfig(json, ConfiguredProperties(props, opts, freshSalt))
  {
  }

  /** Every other file is left as it was. */
  lemma ConfiguredOtherFiles(files: map<string, string>, props: Props, opts: seq<(string, Value)>, freshSalt: string,
                             json: string, name: string)
    requires name != EnvFile && name != DistFile
    ensures name in ConfiguredFiles(files, props, opts, freshSalt, json) <==> name in files
    ensures Contents(ConfiguredFiles(files, props, opts, freshSalt, json), name) == Contents(files, name)
  {
  }

  /** A `line()` of a tag and a value holds one line break when neither holds one. */
  lemma LineBreaks(tag: string, value: string)
    requires '\n' !in tag && '\n' !in value
    ensures multiset(Line(tag + value))['\n'] == 1
  {
    assert multiset(Line(tag + value)) == multiset(tag) + multiset(value) + multiset{'\n'};
  }

  /** The labels of the first generated lines hold no line break. */
  lemma HeaderLabelsUnbroken()
    ensures '\n' !in "# Generated configuration" && '\n' !in "PRESSFLOW_SETTINGS=" && '\n' !in "TERMINUS_ENV="
  {
  }

  /** The labels of the last generated lines hold no line break. */
  lemma BranchLabelsUnbroken()
    ensures '\n' !in "TS_BRANCH=" && '\n' !in "TS_PROD_BRANCH=" && '\n' !in "TS_INSTALL_PROFILE="
  {
  }

  /** Line breaks in a concatenation add up. */
  lemma BreaksAdd(s: string, t: string)
    ensures multiset(s + t)['\n'] == multiset(s)['\n'] + multiset(t)['\n']
  {
    assert multiset(s + t) == multiset(s) + multiset(t);
  }

  /** Six `line()`s of unbroken text hold six line breaks. */
  lemma SixLines(a: string, b: string, c: string, d: string, e: string, f: string)
    requires '\n' !in a && '\n' !in b && '\n' !in c && '\n' !in d && '\n' !in e && '\n' !in f
    ensures multiset(Line(a) + Line(b) + Line(c) + Line(d) + Line(e) + Line(f))['\n'] == 6
  {
    LineBreaks(a, "");
    LineBreaks(b, "");
    LineBreaks(c, "");
    LineBreaks(d, "");
    LineBreaks(e, "");
    LineBreaks(f, "");
    assert a + "" == a && b + "" == b && c + "" == c && d + "" == d && e + "" == e && f + "" == f;
    BreaksAdd(Line(a), Line(b));
    BreaksAdd(Line(a) + Line(b), Line(c));
    BreaksAdd(Line(a) + Line(b) + Line(c), Line(d));
    BreaksAdd(Line(a) + Line(b) + Line(c) + Line(d), Line(e));
    BreaksAdd(Line(a) + Line(b) + Line(c) + Line(d) + Line(e), Line(f));
  }

  /** Each generated setting sits on a line of its own, as long as no value holds a line break. */
  lemma GeneratedConfigLines(json: string, props: Props)
    requires '\n' !in json
    requires '\n' !in ToPhpString(Prop(props, "terminus_env")) && '\n' !in ToPhpString(Prop(props, "branch"))
    requires '\n' !in ToPhpString(Prop(props, "prod-branch")) && '\n' !in ToPhpString(Prop(props, "install_profile"))
    ensures multiset(GeneratedConfig(json, props))['\n'] == 6
  {
    HeaderLabelsUnbroken();
    BranchLabelsUnbroken();
    SixLines("# Generated configuration", "PRESSFLOW_SETTINGS=" + json,
             "TERMINUS_ENV=" + ToPhpString(Prop(props, "terminus_env")),
             "TS_BRANCH=" + ToPhpString(Prop(props, "branch")),
             "TS_PROD_BRANCH=" + ToPhpString(Prop(props, "prod-branch")),
             "TS_INSTALL_PROFILE=" + ToPhpString(Prop(props, "install_profile")));
  }

  /** The generated text ends with a line break, so later appends start a line of their own. */
  lemma GeneratedConfigEndsLine(json: string, props: Props)
    ensures GeneratedConfig(json, props)[|GeneratedConfig(json, props)| - 1] == '\n'
  {
  }
}
