# robo-drupal configuration pipeline, in Dafny

This project models the configuration core of the `Tasks` class of
thinkshout/robo-drupal (src/Tasks.php), a Robo command file for Drupal
projects hosted on Pantheon. The model covers:

- **`getProjectProperties`**: it resolves the project properties in this order:
  - a table of defaults;
  - the working directory;
  - `TS_`-prefixed environment variables (an `array_walk`);
  - the web root and its shell-escaped form;
  - git's current branch;
  - the database name, taken from a `PRESSFLOW_SETTINGS` blob, from `TS_DB_NAME`, or derived from `project_branch` with dashes replaced.
- **The constructor**: it stores that table.
- **`configure`**: it does the following, in order:
  1. starts from the default Pressflow settings, or from a decoded `DEFAULT_PRESSFLOW_SETTINGS`;
  2. overlays the command-line options, where Robo supplies the signature's defaults (`Configuration.ConfigureDefaults`) for options not given, and a `'NULL'` option means an empty value;
  3. patches the database connection and an optional upgrade block;
  4. keeps or generates a hash salt, and appends a new one to `.env.dist`;
  5. computes `terminus_env`;
  6. rebuilds `.env` from `.env.dist` plus six generated lines.
- **`getDefaultPressflowSettings`**, **`escapeArg`** and **`getPantheonSiteEnv`**.
- **Two decisions of `pantheonDeploy`**:
  - a multidev name is at most 11 characters;
  - the `dev` environment deploys to Pantheon's `master` branch.

The object is `RoboDrupal.Tasks`. Its fields are `projectProperties` (a map
from key to PHP value) and `files` (the working directory's files by name).
It also has constant fields for the process environment, `json_decode` and
`json_encode`. Its methods follow the source statement by statement. Each
method is proved against a specification function, and the behaviour is
proved as lemmas about those functions:

- `ResolvedProperties` specifies `getProjectProperties`.
- `ConfiguredProperties`, `ConfiguredSettings` and `ConfiguredFiles` specify `configure`.

PHP values are the datatype `PhpValue.Value`: null, bool, int, string, or an
ordered string-keyed array. The following PHP operations are modelled as they
behave in PHP 8:

- nested assignment, with autovivification;
- `isset`, `empty` and truthiness;
- the loose `==`;
- string conversion.

The shell's reading of a single word (`PhpString.ShellWord`) is the meaning
that `escapeArg` is proved against.

Modules:

| file | module | contents |
|---|---|---|
| wrappers.dfy | Wrappers | `Option` |
| php_value.dfy | PhpValue | PHP values, `Prop`/`isset`/`empty`, loose `==`, nested get/set and their lemmas |
| php_string.dfy | PhpString | `trim`, `strtoupper`, dash replacement, `escapeshellarg`, `escapeArg`, a POSIX shell word reader |
| env.dfy | Environment | `getenv` and its truthiness |
| pressflow.dfy | Pressflow | the default settings and the settings `configure` builds |
| configuration.dfy | Configuration | what `configure` computes: options, salt, `terminus_env`, files |
| tasks.dfy | RoboDrupal | `getProjectProperties`'s specification, the `Tasks` class |
| pantheon.dfy | Pantheon | `getPantheonSiteEnv` and the two `pantheonDeploy` decisions |

### Behaviour of the code worth knowing

- **`working_dir`**: it is added to the table at src/Tasks.php:609, before
  the `array_walk` at src/Tasks.php:618-623, so a truthy `TS_WORKING_DIR`
  overrides it. `RoboDrupal.WalkedWorkingDir` and
  `RoboDrupal.ResolvedWorkingDir` state this.
- **`branch`**: it is not a key of the defaults, so the walk never reads
  `TS_BRANCH`, and git is always asked (src/Tasks.php:634-645). The comments
  at src/Tasks.php:197 and 203 say the branch is written to `.env` "for
  future runs", yet nothing reads `TS_BRANCH` back into `branch`.
  `RoboDrupal.ResolvedBranch` states the code's behaviour.
- **`profile`**: the option is stored under the key `profile`
  (src/Tasks.php:124-132). The `.env` line is written from `install_profile`
  (src/Tasks.php:209-212), so the option never reaches `.env`, although the
  comment at src/Tasks.php:209 says a given profile is written out.
  `Configuration.ConfiguredKeeps` states that `install_profile` keeps its
  value whenever no option has that exact key.
- **The production branch**: `configure` reads `prod-branch`, with a dash, which is
  the option's name (src/Tasks.php:179). The defaults table has `prod_branch`, with
  an underscore (src/Tasks.php:606). These are different keys, so
  `TS_PROD_BRANCH` from the environment never reaches `terminus_env`.
- **`escapeArg`'s pattern**: its `$` also matches just before a final newline,
  so `"abc\n"` is returned unquoted. `PhpString.EscapeArgRoundTrip` shows that
  the inputs made of `[\w-]` characters followed by a final newline are the
  only inputs whose shell reading differs from the input.
- **A `true` option**: PHP 8 finds `true == 'NULL'` true, so an option given as
  `true` is stored as `''`. `Configuration.StoredValues` states this.

## Model

| member | source | states |
|---|---|---|
| RoboDrupal.Tasks.GetProjectProperties | src/Tasks.php:597-664 | the returned table is exactly `ResolvedProperties` of the environment, working directory and git output |
| RoboDrupal.Tasks.ArrayWalk | src/Tasks.php:618-623 | visiting every key once, in any order, replaces exactly the keys whose `TS_` variable is truthy with that variable's value |
| RoboDrupal.Tasks.AddDbName | src/Tasks.php:647-661 | the database keys are added as the blob, `TS_DB_NAME` or the dash-free `project_branch` gives them |
| RoboDrupal.Tasks.constructor | src/Tasks.php:23-25 | the object holds the resolved properties and the given files |
| RoboDrupal.WalkedKeys | src/Tasks.php:599-623 | after the walk the keys are exactly the seven defaults and `working_dir` |
| RoboDrupal.WalkedDefault | src/Tasks.php:599-623 | a default holds its `TS_` variable's value when that is truthy, the default otherwise |
| RoboDrupal.WalkedWorkingDir | src/Tasks.php:609-623 | `working_dir` is overridden by a truthy `TS_WORKING_DIR` |
| RoboDrupal.ResolvedKeys | src/Tasks.php:597-664 | a key is returned iff it is a default, `working_dir`, `web_root`, `escaped_web_root_path`, `branch`, `db-name`, or (with a blob) `db-user`/`db-pass` |
| RoboDrupal.ResolvedDefault | src/Tasks.php:599-623 | every default survives the later steps with its walked value |
| RoboDrupal.ResolvedWorkingDir | src/Tasks.php:609-623 | the returned `working_dir` is `TS_WORKING_DIR` when truthy, the process directory otherwise |
| RoboDrupal.LocatedWebRoot | src/Tasks.php:625-632 | the step after the walk stores the web root built from the walked `working_dir`, and its `escapeArg` form |
| RoboDrupal.ResolvedWebRoot | src/Tasks.php:625-630 | `web_root` is `working_dir/TS_WEB_ROOT` when `TS_WEB_ROOT` is truthy, `working_dir` otherwise |
| RoboDrupal.ResolvedEscapedWebRoot | src/Tasks.php:632 | `escaped_web_root_path` is `escapeArg` of the web root |
| RoboDrupal.ResolvedFromBranched | src/Tasks.php:634-645 | `branch` is never set before the git step, so git's answer is always used |
| RoboDrupal.ResolvedBranch | src/Tasks.php:634-645 | `branch` is git's output trimmed, whatever `TS_BRANCH` says |
| RoboDrupal.WithDbNameKeys | src/Tasks.php:647-661 | the database step adds `db-name`, and `db-user`/`db-pass` only with a blob, and no other key |
| RoboDrupal.WithDbNameKeeps | src/Tasks.php:647-661 | the database step changes no other key |
| RoboDrupal.WithDbNameFromBlob | src/Tasks.php:647-652 | with a truthy blob, name, user and password are the blob's default connection fields |
| RoboDrupal.ResolvedDbFromBlob | src/Tasks.php:647-652 | the same for the returned table: `db-name`, `db-user`, `db-pass` are read from `databases.default.default` of the decoded blob |
| RoboDrupal.ResolvedDbFromEnv | src/Tasks.php:653-655 | without a blob, a truthy `TS_DB_NAME` is the database name |
| RoboDrupal.WithDbNameDerived | src/Tasks.php:656-661 | otherwise the name is `project_branch` with dashes made underscores |
| RoboDrupal.ResolvedDbDerived | src/Tasks.php:656-661 | for the returned table: the name is the (overridden) project, `_`, and git's trimmed branch, dashes made underscores |
| RoboDrupal.ResolvedDbDerivedNoDash | src/Tasks.php:660 | a derived database name holds no dash |
| RoboDrupal.Tasks.Configure | src/Tasks.php:104-216 | the new properties are `ConfiguredProperties` of the old ones, the options and the salt; the new files are `ConfiguredFiles` with the encoded `ConfiguredSettings` |
| RoboDrupal.Tasks.OverlayOptions | src/Tasks.php:124-132 | the loop leaves the properties as `ApplyOptions` of the options in order, files unchanged |
| RoboDrupal.Tasks.PatchDatabases | src/Tasks.php:134-156 | the settings gain the connection fields and the upgrade block as `PatchConnection` then `AddUpgrade` define them |
| RoboDrupal.Tasks.KeepSalt | src/Tasks.php:159-168 | an empty salt is replaced by the fresh one and `.env.dist` gains its line; otherwise nothing changes |
| RoboDrupal.Tasks.SetTerminusEnv | src/Tasks.php:176-182 | only `terminus_env` changes, to 'dev' or the branch |
| RoboDrupal.Tasks.WriteEnvFile | src/Tasks.php:186-213 | `.env` becomes `.env.dist`'s contents (or empty) followed by the six generated lines; properties unchanged |
| RoboDrupal.Tasks.AppendToFile | src/Tasks.php:190-195 | an append adds the text at the end of the file, creating a missing one |
| RoboDrupal.Tasks.RemoveFile | src/Tasks.php:187 | the file is gone, nothing else changes |
| RoboDrupal.Tasks.CopyFile | src/Tasks.php:188 | the target gets the source's contents; a missing source copies nothing |
| RoboDrupal.RebuiltEnvFile | src/Tasks.php:186-213 | remove, copy and append together yield `.env.dist`'s contents plus the generated text, with or without `.env.dist` |
| Configuration.ConfiguredSettingsSteps | src/Tasks.php:134-173 | building the settings from the overlaid properties and then the salted ones equals `ConfiguredSettings` of the final properties |
| Configuration.StoredValues | src/Tasks.php:125-130 | `'NULL'` and `true` store '', every other string and `false` store themselves |
| Configuration.OptionsKeep | src/Tasks.php:124-132 | a key that no option sets keeps its presence and value |
| Configuration.OptionsLastWins | src/Tasks.php:124-132 | the last non-null option for a key decides its stored value |
| Configuration.ConfiguredSalt | src/Tasks.php:159-170 | the salt is the overlaid one when non-empty, else the fresh one, so never empty given a non-empty fresh salt |
| Configuration.SaltKept | src/Tasks.php:159-168 | a run whose properties already hold a non-empty salt keeps it and appends no salt line, unless an option sets the salt |
| Configuration.DefaultOptions | src/Tasks.php:104-113 | with the signature's defaults, `prod-branch` is 'main', `profile` 'standard', every other property unchanged, and `terminus_env` is 'dev' on the branch `main` |
| RoboDrupal.EnvVarNames | src/Tasks.php:618-623 | the walk reads `working_dir`, `hash_salt`, `prod_branch` and `install_profile` from `TS_WORKING_DIR`, `TS_HASH_SALT`, `TS_PROD_BRANCH` and `TS_INSTALL_PROFILE` |
| RoboDrupal.SaltReadBack | src/Tasks.php:618-623 | a truthy `TS_HASH_SALT`, as the salt line written at src/Tasks.php:166 provides, is the resolved `hash_salt` |
| RoboDrupal.SaltKeptAcrossRuns | src/Tasks.php:159-168 | a later run, resolved from an environment holding the persisted `TS_HASH_SALT`, keeps that salt and appends no salt line, unless an option sets the salt |
| Configuration.ConfiguredTerminusEnv | src/Tasks.php:176-182 | `terminus_env` is 'dev' iff branch loosely equals `prod-branch`, the branch otherwise |
| Configuration.ConfiguredKeeps | src/Tasks.php:124-182 | any other property no option sets is unchanged, `install_profile` included |
| Configuration.ConfiguredEnvFiles | src/Tasks.php:159-213 | `.env.dist` gains the salt line exactly when a salt is generated; `.env` is that file followed by the generated lines |
| Configuration.ConfiguredOtherFiles | src/Tasks.php:186-213 | no other file is touched |
| Configuration.GeneratedConfigLines | src/Tasks.php:190-213 | the generated text is exactly six lines when no value holds a line break |
| Configuration.GeneratedConfigEndsLine | src/Tasks.php:190-213 | the generated text ends with a line break |
| Pressflow.DefaultConnectionBlock | src/Tasks.php:719-736 | the defaults hold the connection block at `databases.default.default` |
| Pressflow.DefaultConnectionValues | src/Tasks.php:726-734 | the default connection is MySQL, empty database, root/root at 127.0.0.1:3306 |
| Pressflow.DefaultTopValues | src/Tasks.php:719-761 | the defaults have no upgrade block and no `drupal_hash_salt`, an empty `hash_salt` and `../config` |
| Pressflow.PatchedDatabase | src/Tasks.php:134-135 | the database field is `db-name` |
| Pressflow.PatchedUser | src/Tasks.php:137-140 | a set `db-user` becomes the user, otherwise the base user is kept |
| Pressflow.PatchedPassword | src/Tasks.php:142-145 | a set `db-pass` becomes the password, otherwise the base one is kept |
| Pressflow.PatchedHost | src/Tasks.php:147-150 | a set `db-host` becomes the host, otherwise the base one is kept |
| Pressflow.ConfiguredConnection | src/Tasks.php:134-150 | the final settings carry those four connection fields |
| Pressflow.PatchKeepsUpgrade | src/Tasks.php:134-150 | the connection patch does not touch an existing upgrade block |
| Pressflow.ConfiguredUpgrade | src/Tasks.php:152-156 | when wanted, the upgrade block is the default group with `db-upgrade` as its database; otherwise the base's upgrade block is kept |
| Pressflow.UpgradeOnlyWhenWanted | src/Tasks.php:152-156 | from the defaults, an upgrade block exists iff `db-upgrade` is set and differs from `db-name` |
| Pressflow.ConfiguredSaltAndConfigDir | src/Tasks.php:170-173 | `drupal_hash_salt` and `config_directory_name` carry `hash_salt` and `config_dir` |
| Pressflow.OtherSettingsUntouched | src/Tasks.php:134-173 | every path `configure` does not write keeps its base value |
| Pressflow.DatabasesReadDbKeys | src/Tasks.php:134-156 | the database part depends on the five `db-` properties only |
| PhpString.EscapeArg | src/Tasks.php:674-676 | the result equals the input iff the pattern `{^[\w-]+$}` matches it |
| PhpString.EscapeShellArgRoundTrip | src/Tasks.php:674-676 | the shell reads the `escapeshellarg` form back as the original string |
| PhpString.EscapeArgRoundTrip | src/Tasks.php:674-676 | the shell reads `escapeArg`'s result back as the input iff the input is not word characters plus a final newline |
| PhpString.TrimIsInfix | src/Tasks.php:644 | `trim` returns an infix of its input that neither starts nor ends with a trim character |
| PhpString.TrimStrips | src/Tasks.php:644 | what `trim` removes at either end is trim characters only |
| PhpString.TrimIdempotent | src/Tasks.php:644 | trimming twice equals trimming once |
| PhpString.Upper | src/Tasks.php:619 | the result has the input's length and no lower-case ASCII letter, and every character that is not one is kept |
| PhpString.UpperIdempotent | src/Tasks.php:619 | upper-casing twice equals upper-casing once |
| PhpString.ReplaceDashes | src/Tasks.php:660 | every dash becomes an underscore, no other character changes, no dash remains |
| Environment.GetEnv | src/Tasks.php:620 | `getenv` is truthy iff the variable is truthy, and a string iff the variable is set |
| Pantheon.SiteEnvSplits | src/Tasks.php:681-689 | the answer splits at its first dot into the site and the environment; the environment is `$env` when truthy, `TERMINUS_ENV` otherwise |
| Pantheon.DeploySiteEnv | src/Tasks.php:469-471 | the environment `pantheonDeploy` picks is the one `getPantheonSiteEnv` names |
| Pantheon.MultidevNames | src/Tasks.php:482 | a multidev name is allowed iff it has at most 11 characters |
| Pantheon.PantheonBranchNeverDev | src/Tasks.php:504 | no environment deploys to a branch named `dev`, and the mapping is idempotent |
| Pantheon.TerminusEnvDeploy | src/Tasks.php:182 | the production branch's environment `dev` is an allowed name that deploys to `master`; other branches not loosely equal to `dev` deploy to themselves |
| RoboDrupal.Walk | src/Tasks.php:618-623 | definition: each key takes its `TS_` variable's value when that is truthy; proved about in `WalkedDefault` and `WalkedWorkingDir` |
| RoboDrupal.WebRoot | src/Tasks.php:625-630 | definition: `working_dir/TS_WEB_ROOT` when that variable is truthy, `working_dir` otherwise; proved about in `ResolvedWebRoot` |
| RoboDrupal.WithDbName | src/Tasks.php:647-661 | definition: blob first, then `TS_DB_NAME`, then dash-free `project_branch`; proved about in `WithDbNameKeys`, `WithDbNameKeeps`, `WithDbNameFromBlob`, `WithDbNameDerived` |
| Configuration.Stored | src/Tasks.php:127-129 | definition: a value loosely equal to `'NULL'` becomes `''`; proved about in `StoredValues` |
| Configuration.ApplyOptions | src/Tasks.php:124-132 | definition: the non-null options stored in order; proved about in `OptionsKeep` and `OptionsLastWins` |
| Configuration.BaseSettings | src/Tasks.php:115-120 | definition: a truthy `DEFAULT_PRESSFLOW_SETTINGS` decoded, the defaults otherwise; used by `RoboDrupal.Tasks.Configure`'s contract |
| Configuration.ResolveSalt | src/Tasks.php:159-168 | definition: an `empty` salt becomes the fresh one; proved about in `ConfiguredSalt`, `SaltKept` and `RoboDrupal.SaltKeptAcrossRuns` |
| Configuration.TerminusEnv | src/Tasks.php:182 | definition: `'dev'` when the branch loosely equals the production branch, the branch otherwise; proved about in `ConfiguredTerminusEnv` and `Pantheon.TerminusEnvDeploy` |
| Configuration.GeneratedConfig | src/Tasks.php:190-213 | definition: the six appended lines in source order; proved about in `GeneratedConfigLines` and `GeneratedConfigEndsLine` |
| Pressflow.DefaultPressflowSettings | src/Tasks.php:719-761 | definition: the default settings array; proved about in `DefaultConnectionBlock`, `DefaultConnectionValues`, `DefaultTopValues` |
| Pressflow.PatchConnection | src/Tasks.php:134-150 | definition: database name, then user, password and host when set; proved about in `PatchedDatabase` to `PatchedHost` and `PatchKeepsUpgrade` |
| Pressflow.AddUpgrade | src/Tasks.php:152-156 | definition: the copied and renamed upgrade group when wanted; proved about in `ConfiguredUpgrade` and `UpgradeOnlyWhenWanted` |
| PhpString.Trim | src/Tasks.php:644 | never longer than its input; the rest is proved in `TrimIsInfix`, `TrimStrips`, `TrimIdempotent` |
| PhpString.EscapeShellArg | src/Tasks.php:675 | the POSIX form starts with a quote and is at least two longer than its input; its meaning is proved in `EscapeShellArgRoundTrip` |
| Pantheon.PantheonSiteEnv | src/Tasks.php:681-689 | definition: `<site>.<env>`, an unset variable joining as `''`; proved about in `SiteEnvSplits` |
| Pantheon.DeployEnv | src/Tasks.php:470 | definition: the `pantheon-branch` option when truthy, `TERMINUS_ENV` otherwise; proved about in `DeploySiteEnv` |
| Pantheon.MultidevNameAllowed | src/Tasks.php:482 | definition: the name is not longer than 11; proved about in `MultidevNames` and `TerminusEnvDeploy` |
| Pantheon.PantheonBranch | src/Tasks.php:504 | definition: `master` for a name loosely equal to `dev`, the name otherwise; proved about in `PantheonBranchNeverDev` and `TerminusEnvDeploy` |

## Left out

- Dotenv: loading `.env` or `.env.dist` into the environment (src/Tasks.php:611-616) is not modelled. The environment is the map after loading. `RoboDrupal.SaltKeptAcrossRuns` starts from an environment that holds `TS_HASH_SALT`; that Dotenv reads the line `TS_HASH_SALT="<salt>"` back as the salt is not proved.
- `getcwd()` is not modelled; the working directory is a parameter.
- The git process is not modelled. Its output is a parameter; a failing git is an empty output.
- `Crypt::randomBytesBase64(55)` is not modelled; the fresh salt is a parameter.
- `json_decode` and `json_encode` are opaque functions fixed for the object. Their formats are not modelled.
- Robo task results are not modelled: `configure`'s return value, and failures of the file writes (every write succeeds; `_copy` from a missing source copies nothing).
- PHP numeric strings are not modelled: the loose `==` compares two strings as strings, and a string with an integer by the integer's decimal form, so `'01' == 1` and `'1.0' == '1'` are false here while PHP 8 finds them true. Arrays are compared by their ordered entries, strictly, while PHP's array `==` ignores order and compares elements loosely; `configure` and `getProjectProperties` never compare arrays.
- A nested assignment through a scalar replaces the scalar by an array in the model; PHP raises an error there.
- `pantheonDeploy`: only its two decisions are modelled. The terminus and git commands, the prompt and the install step are not modelled, because they are external processes.
- The other commands of src/Tasks.php are not part of this model.
- PhpString.EscapeShellArg: models the POSIX form only. Windows `escapeshellarg` is not modelled.
- Pantheon.MultidevNameAllowed: counts characters, while `strlen` counts bytes, so a name with multi-byte characters is judged by its character count here.
- PhpString.Trim: works on characters. PHP's `trim` works on bytes.
- PhpString.Upper: works on characters. PHP's `strtoupper` works on bytes.
