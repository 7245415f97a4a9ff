/**
 * The Pressflow settings record that `configure` serialises into `.env`:
 * its defaults (src/Tasks.php:719-761) and the way `configure` patches the
 * database blocks, the hash salt and the config directory into it
 * (src/Tasks.php:134-173).
 */
module Pressflow {
  import opened Wrappers
  import opened PhpValue

  /** `['databases']['default']['default']`, the primary connection. */
  const DefaultDb: seq<string> := ["databases", "default", "default"]

  /** `['databases']['upgrade']`, the optional migration-source block. */
  const UpgradeDb: seq<string> := ["databases", "upgrade"]

  /** `['databases']['default']`, the block the upgrade block is copied from. */
  const DefaultDbGroup: seq<string> := ["databases", "default"]

  const SaltKey: seq<string> := ["drupal_hash_salt"]

  const ConfigDirKey: seq<string> := ["config_directory_name"]

  function DbField(field: string): seq<string> {
    DefaultDb + [field]
  }

  /** The default connection block of `getDefaultPressflowSettings()`. */
  function DefaultConnection(): Value {
    Arr([
      ("driver", Str("mysql")),
      ("prefix", Str("")),
      ("database", Str("")),
      ("username", Str("root")),
      ("password", Str("root")),
      ("host", Str("127.0.0.1")),
      ("port", Int(3306))])
  }

  /** The platform flags of `getDefaultPressflowSettings()`. */
  function DefaultConf(): Value {
    Arr([
      ("pressflow_smart_start", Bool(true)),
      ("pantheon_binding", Null),
      ("pantheon_site_uuid", Null),
      ("pantheon_environment", Str("local")),
      ("pantheon_tier", Str("local")),
      ("pantheon_index_host", Str("localhost")),
      ("pantheon_index_port", Int(8983)),
      ("redis_client_host", Str("")),
      ("redis_client_port", Int(6379)),
      ("redis_client_password", Str("")),
      ("file_public_path", Str("sites/default/files")),
      ("file_private_path", Str("sites/default/files/private")),
      ("file_directory_path", Str("site/default/files")),
      ("file_temporary_path", Str("/tmp")),
      ("file_directory_temp", Str("/tmp")),
      ("css_gzip_compression", Bool(false)),
      ("js_gzip_compression", Bool(false)),
      ("page_compression", Bool(false))])
  }

  /** `getDefaultPressflowSettings()`: a local MySQL connection and local platform flags. */
  function DefaultPressflowSettings(): Value {
    Arr([
      ("databases", Arr([("default", Arr([("default", DefaultConnection())]))])),
      ("conf", DefaultConf()),
      ("hash_salt", Str("")),
      ("config_directory_name", Str("../config"))])
  }

  lemma DefaultConnectionBlock()
    ensures Get(DefaultPressflowSettings(), DefaultDb) == Some(DefaultConnection())
  {
    var dbs := Arr([("default", Arr([("default", DefaultConnection())]))]);
    assert Find(DefaultPressflowSettings().entries, "databases") == Some(dbs);
  }

  lemma DefaultConnectionFields()
    ensures Find(DefaultConnection().entries, "driver") == Some(Str("mysql"))
    ensures Find(DefaultConnection().entries, "database") == Some(Str(""))
    ensures Find(DefaultConnection().entries, "username") == Some(Str("root"))
    ensures Find(DefaultConnection().entries, "password") == Some(Str("root"))
    ensures Find(DefaultConnection().entries, "host") == Some(Str("127.0.0.1"))
    ensures Find(DefaultConnection().entries, "port") == Some(Int(3306))
  {
  }

  /** A field of the default connection, read through the whole default settings. */
  lemma DefaultField(f: string, v: Value)
    requires Find(DefaultConnection().entries, f) == Some(v)
    ensures At(DefaultPressflowSettings(), DbField(f)) == v
  {
    DefaultConnectionBlock();
    GetSplit(DefaultPressflowSettings(), DefaultDb, [f]);
  }

  /** The default connection is root/root@127.0.0.1:3306 over MySQL with an empty database name. */
  lemma DefaultConnectionValues()
    ensures At(DefaultPressflowSettings(), DbField("driver")) == Str("mysql")
    ensures At(DefaultPressflowSettings(), DbField("database")) == Str("")
    ensures At(DefaultPressflowSettings(), DbField("username")) == Str("root")
    ensures At(DefaultPressflowSettings(), DbField("password")) == Str("root")
    ensures At(DefaultPressflowSettings(), DbField("host")) == Str("127.0.0.1")
    ensures At(DefaultPressflowSettings(), DbField("port")) == Int(3306)
  {
    DefaultConnectionFields();
    DefaultField("driver", Str("mysql"));
    DefaultField("database", Str(""));
    DefaultField("username", Str("root"));
    DefaultField("password", Str("root"));
    DefaultField("host", Str("127.0.0.1"));
    DefaultField("port", Int(3306));
  }

  /**
   * The defaults have no upgrade block, an empty `hash_salt` (not the
   * `drupal_hash_salt` that `configure` sets) and `../config`.
   */
  lemma DefaultTopValues()
    ensures Get(DefaultPressflowSettings(), UpgradeDb) == None
    ensures Get(DefaultPressflowSettings(), SaltKey) == None
    ensures At(DefaultPressflowSettings(), ["hash_salt"]) == Str("")
    ensures At(DefaultPressflowSettings(), ConfigDirKey) == Str("../config")
  {
    var top := DefaultPressflowSettings();
    var dbs := Arr([("default", Arr([("default", DefaultConnection())]))]);
    assert Find(top.entries, "databases") == Some(dbs);
    assert Find(dbs.entries, "upgrade") == None;
    assert Find(top.entries, "drupal_hash_salt") == None;
    assert Find(top.entries, "hash_salt") == Some(Str(""));
    assert Find(top.entries, "config_directory_name") == Some(Str("../config"));
  }

  /** `configure` adds an upgrade block when `db-upgrade` is set and differs (loosely) from `db-name`. */
  predicate UpgradeWanted(props: Props) {
    IsSet(props, "db-upgrade") && !LooseEquals(props["db-upgrade"], Prop(props, "db-name"))
  }

  /** The connection steps of `configure` (src/Tasks.php:134-150): database name, then user, password, host when set. */
  function PatchConnection(settings: Value, props: Props): Value {
    var s1 := Set(settings, DbField("database"), Prop(props, "db-name"));
    var s2 := if IsSet(props, "db-user") then Set(s1, DbField("username"), props["db-user"]) else s1;
    var s3 := if IsSet(props, "db-pass") then Set(s2, DbField("password"), props["db-pass"]) else s2;
    if IsSet(props, "db-host") then Set(s3, DbField("host"), props["db-host"]) else s3
  }

  /** The upgrade step of `configure` (src/Tasks.php:152-156): a copy of the default group under `upgrade`, renamed. */
  function AddUpgrade(settings: Value, props: Props): Value {
    if UpgradeWanted(props) then
      var copied := Set(settings, UpgradeDb, At(settings, DefaultDbGroup));
      Set(copied, UpgradeDb + ["default", "database"], props["db-upgrade"])
    else settings
  }

  /** The settings `configure` serialises: databases patched, then salt and config directory set. */
  function ConfiguredSettings(base: Value, props: Props): Value {
    var s := AddUpgrade(PatchConnection(base, props), props);
    Set(Set(s, SaltKey, Prop(props, "hash_salt")), ConfigDirKey, Prop(props, "config_dir"))
  }

  /** A path clear of everything `configure` writes. */
  predicate Untouched(q: seq<string>) {
    && Disjoint(DbField("database"), q)
    && Disjoint(DbField("username"), q)
    && Disjoint(DbField("password"), q)
    && Disjoint(DbField("host"), q)
    && Disjoint(UpgradeDb, q)
    && Disjoint(SaltKey, q)
    && Disjoint(ConfigDirKey, q)
  }

  /** The steps after the connection patch leave alone every path clear of the upgrade block, the salt and the config directory. */
  lemma AfterConnectionKeeps(c: Value, props: Props, q: seq<string>)
    requires Disjoint(UpgradeDb, q) && Disjoint(SaltKey, q) && Disjoint(ConfigDirKey, q)
    ensures Get(Set(Set(AddUpgrade(c, props), SaltKey, Prop(props, "hash_salt")), ConfigDirKey, Prop(props, "config_dir")), q)
         == Get(c, q)
  {
    var u := AddUpgrade(c, props);
    if UpgradeWanted(props) {
      var copied := Set(c, UpgradeDb, At(c, DefaultDbGroup));
      DisjointBelow(UpgradeDb, ["default", "database"], q);
      GetSetDisjoint(copied, UpgradeDb + ["default", "database"], props["db-upgrade"], q);
      GetSetDisjoint(c, UpgradeDb, At(c, DefaultDbGroup), q);
    }
    GetSetDisjoint(u, SaltKey, Prop(props, "hash_salt"), q);
    GetSetDisjoint(Set(u, SaltKey, Prop(props, "hash_salt")), ConfigDirKey, Prop(props, "config_dir"), q);
  }

  /** The connection fields are pairwise separate. */
  lemma ConnectionPathsDisjoint(f: string, g: string)
    requires f != g
    ensures Disjoint(DbField(f), DbField(g))
  {
    DisjointAt(DbField(f), DbField(g), 3);
  }

  /** A connection field is clear of the upgrade block, the salt and the config directory. */
  lemma ConnectionFieldClear(f: string)
    ensures Disjoint(UpgradeDb, DbField(f)) && Disjoint(SaltKey, DbField(f)) && Disjoint(ConfigDirKey, DbField(f))
  {
    DisjointAt(UpgradeDb, DbField(f), 1);
    DisjointAt(SaltKey, DbField(f), 0);
    DisjointAt(ConfigDirKey, DbField(f), 0);
  }

  /** The connection patch writes `db-name` into the database field. */
  lemma PatchedDatabase(base: Value, props: Props)
    ensures Get(PatchConnection(base, props), DbField("database")) == Some(Prop(props, "db-name"))
  {
    var s1 := Set(base, DbField("database"), Prop(props, "db-name"));
    var s2 := if IsSet(props, "db-user") then Set(s1, DbField("username"), props["db-user"]) else s1;
    var s3 := if IsSet(props, "db-pass") then Set(s2, DbField("password"), props["db-pass"]) else s2;
    ConnectionPathsDisjoint("username", "database");
    ConnectionPathsDisjoint("password", "database");
    ConnectionPathsDisjoint("host", "database");
    if IsSet(props, "db-user") { GetSetDisjoint(s1, DbField("username"), props["db-user"], DbField("database")); }
    if IsSet(props, "db-pass") { GetSetDisjoint(s2, DbField("password"), props["db-pass"], DbField("database")); }
    if IsSet(props, "db-host") { GetSetDisjoint(s3, DbField("host"), props["db-host"], DbField("database")); }
  }

  /** The connection patch writes a set `db-user` into the user field and keeps the base user otherwise. */
  lemma PatchedUser(base: Value, props: Props)
    ensures Get(PatchConnection(base, props), DbField("username"))
         == if IsSet(props, "db-user") then Some(props["db-user"]) else Get(base, DbField("username"))
  {
    var s1 := Set(base, DbField("database"), Prop(props, "db-name"));
    var s2 := if IsSet(props, "db-user") then Set(s1, DbField("username"), props["db-user"]) else s1;
    var s3 := if IsSet(props, "db-pass") then Set(s2, DbField("password"), props["db-pass"]) else s2;
    ConnectionPathsDisjoint("database", "username");
    ConnectionPathsDisjoint("password", "username");
    ConnectionPathsDisjoint("host", "username");
    GetSetDisjoint(base, DbField("database"), Prop(props, "db-name"), DbField("username"));
    if IsSet(props, "db-pass") { GetSetDisjoint(s2, DbField("password"), props["db-pass"], DbField("username")); }
    if IsSet(props, "db-host") { GetSetDisjoint(s3, DbField("host"), props["db-host"], DbField("username")); }
  }

  /** The connection patch writes a set `db-pass` into the password field and keeps the base password otherwise. */
  lemma PatchedPassword(base: Value, props: Props)
    ensures Get(PatchConnection(base, props), DbField("password"))
         == if IsSet(props, "db-pass") then Some(props["db-pass"]) else Get(base, DbField("password"))
  {
    var s1 := Set(base, DbField("database"), Prop(props, "db-name"));
    var s2 := if IsSet(props, "db-user") then Set(s1, DbField("username"), props["db-user"]) else s1;
    var s3 := if IsSet(props, "db-pass") then Set(s2, DbField("password"), props["db-pass"]) else s2;
    ConnectionPathsDisjoint("database", "password");
    ConnectionPathsDisjoint("username", "password");
    ConnectionPathsDisjoint("host", "password");
    GetSetDisjoint(base, DbField("database"), Prop(props, "db-name"), DbField("password"));
    if IsSet(props, "db-user") { GetSetDisjoint(s1, DbField("username"), props["db-user"], DbField("password")); }
    if IsSet(props, "db-host") { GetSetDisjoint(s3, DbField("host"), props["db-host"], DbField("password")); }
  }

  /** The connection patch writes a set `db-host` into the host field and keeps the base host otherwise. */
  lemma PatchedHost(base: Value, props: Props)
    ensures Get(PatchConnection(base, props), DbField("host"))
         == if IsSet(props, "db-host") then Some(props["db-host"]) else Get(base, DbField("host"))
  {
    var s1 := Set(base, DbField("database"), Prop(props, "db-name"));
    var s2 := if IsSet(props, "db-user") then Set(s1, DbField("username"), props["db-user"]) else s1;
    ConnectionPathsDisjoint("database", "host");
    ConnectionPathsDisjoint("username", "host");
    ConnectionPathsDisjoint("password", "host");
    GetSetDisjoint(base, DbField("database"), Prop(props, "db-name"), DbField("host"));
    if IsSet(props, "db-user") { GetSetDisjoint(s1, DbField("username"), props["db-user"], DbField("host")); }
    if IsSet(props, "db-pass") { GetSetDisjoint(s2, DbField("password"), props["db-pass"], DbField("host")); }
  }

  /** The steps after the connection patch leave the connection field `f` as the patch wrote it. */
  lemma ConfiguredField(base: Value, props: Props, f: string)
    ensures Get(ConfiguredSettings(base, props), DbField(f)) == Get(PatchConnection(base, props), DbField(f))
  {
    ConnectionFieldClear(f);
    AfterConnectionKeeps(PatchConnection(base, props), props, DbField(f));
  }

  /**
   * After `configure` the connection's database is the `db-name` property;
   * user, password and host are the `db-user`, `db-pass`, `db-host`
   * properties when those are set and not null, and keep their base values
   * otherwise.
   */
  lemma ConfiguredConnection(base: Value, props: Props)
    ensures Get(ConfiguredSettings(base, props), DbField("database")) == Some(Prop(props, "db-name"))
    ensures Get(ConfiguredSettings(base, props), DbField("username"))
         == if IsSet(props, "db-user") then Some(props["db-user"]) else Get(base, DbField("username"))
    ensures Get(ConfiguredSettings(base, props), DbField("password"))
         == if IsSet(props, "db-pass") then Some(props["db-pass"]) else Get(base, DbField("password"))
    ensures Get(ConfiguredSettings(base, props), DbField("host"))
         == if IsSet(props, "db-host") then Some(props["db-host"]) else Get(base, DbField("host"))
  {
    PatchedDatabase(base, props);
    PatchedUser(base, props);
    PatchedPassword(base, props);
    PatchedHost(base, props);
    ConfiguredField(base, props, "database");
    ConfiguredField(base, props, "username");
    ConfiguredField(base, props, "password");
    ConfiguredField(base, props, "host");
  }

  /** The connection patch leaves the upgrade block of the base settings alone. */
  lemma PatchKeepsUpgrade(base: Value, props: Props)
    ensures Get(PatchConnection(base, props), UpgradeDb) == Get(base, UpgradeDb)
  {
    var s1 := Set(base, DbField("database"), Prop(props, "db-name"));
    var s2 := if IsSet(props, "db-user") then Set(s1, DbField("username"), props["db-user"]) else s1;
    var s3 := if IsSet(props, "db-pass") then Set(s2, DbField("password"), props["db-pass"]) else s2;
    FieldKeepsUpgrade(base, "database", Prop(props, "db-name"));
    if IsSet(props, "db-user") { FieldKeepsUpgrade(s1, "username", props["db-user"]); }
    if IsSet(props, "db-pass") { FieldKeepsUpgrade(s2, "password", props["db-pass"]); }
    if IsSet(props, "db-host") { FieldKeepsUpgrade(s3, "host", props["db-host"]); }
  }

  /** Writing one connection field leaves the upgrade block alone. */
  lemma FieldKeepsUpgrade(v: Value, f: string, x: Value)
    ensures Get(Set(v, DbField(f), x), UpgradeDb) == Get(v, UpgradeDb)
  {
    ConnectionFieldClear(f);
    GetSetDisjoint(v, DbField(f), x, UpgradeDb);
  }

  /** The salt and config directory steps leave the upgrade block as the upgrade step made it. */
  lemma UpgradeAfterSalt(base: Value, props: Props)
    ensures Get(ConfiguredSettings(base, props), UpgradeDb) == Get(AddUpgrade(PatchConnection(base, props), props), UpgradeDb)
  {
    var u := AddUpgrade(PatchConnection(base, props), props);
    DisjointAt(SaltKey, UpgradeDb, 0);
    DisjointAt(ConfigDirKey, UpgradeDb, 0);
    GetSetDisjoint(u, SaltKey, Prop(props, "hash_salt"), UpgradeDb);
    GetSetDisjoint(Set(u, SaltKey, Prop(props, "hash_salt")), ConfigDirKey, Prop(props, "config_dir"), UpgradeDb);
  }

  /**
   * When wanted, the upgrade block is the already-patched default group
   * with its database renamed to `db-upgrade`; otherwise `configure`
   * leaves whatever upgrade block the base settings had.
   */
  lemma ConfiguredUpgrade(base: Value, props: Props)
    ensures UpgradeWanted(props) ==>
      Get(ConfiguredSettings(base, props), UpgradeDb)
        == Some(Set(At(ConfiguredSettings(base, props), DefaultDbGroup), ["default", "database"], props["db-upgrade"]))
    ensures !UpgradeWanted(props) ==>
      Get(ConfiguredSettings(base, props), UpgradeDb) == Get(base, UpgradeDb)
  {
    var c := PatchConnection(base, props);
    UpgradeAfterSalt(base, props);
    if UpgradeWanted(props) {
      var copied := Set(c, UpgradeDb, At(c, DefaultDbGroup));
      GetSetBelow(copied, UpgradeDb, ["default", "database"], props["db-upgrade"]);
      // the default group is not moved by anything after the connection patch
      DisjointAt(UpgradeDb, DefaultDbGroup, 1);
      DisjointAt(SaltKey, DefaultDbGroup, 0);
      DisjointAt(ConfigDirKey, DefaultDbGroup, 0);
      AfterConnectionKeeps(c, props, DefaultDbGroup);
    } else {
      PatchKeepsUpgrade(base, props);
    }
  }

  /** Starting from the default settings, an upgrade block exists exactly when it is wanted. */
  lemma UpgradeOnlyWhenWanted(props: Props)
    ensures Get(ConfiguredSettings(DefaultPressflowSettings(), props), UpgradeDb).Some? <==> UpgradeWanted(props)
  {
    ConfiguredUpgrade(DefaultPressflowSettings(), props);
    DefaultTopValues();
  }

  /** `drupal_hash_salt` and `config_directory_name` carry the `hash_salt` and `config_dir` properties. */
  lemma ConfiguredSaltAndConfigDir(base: Value, props: Props)
    ensures Get(ConfiguredSettings(base, props), SaltKey) == Some(Prop(props, "hash_salt"))
    ensures Get(ConfiguredSettings(base, props), ConfigDirKey) == Some(Prop(props, "config_dir"))
  {
    var u := AddUpgrade(PatchConnection(base, props), props);
    DisjointAt(ConfigDirKey, SaltKey, 0);
    GetSetDisjoint(Set(u, SaltKey, Prop(props, "hash_salt")), ConfigDirKey, Prop(props, "config_dir"), SaltKey);
  }

  /** Everything `configure` does not write keeps its base value: the `conf` flags, the port, the driver, ... */
  lemma OtherSettingsUntouched(base: Value, props: Props, q: seq<string>)
    requires Untouched(q)
    ensures Get(ConfiguredSettings(base, props), q) == Get(base, q)
  {
    var s1 := Set(base, DbField("database"), Prop(props, "db-name"));
    var s2 := if IsSet(props, "db-user") then Set(s1, DbField("username"), props["db-user"]) else s1;
    var s3 := if IsSet(props, "db-pass") then Set(s2, DbField("password"), props["db-pass"]) else s2;
    GetSetDisjoint(base, DbField("database"), Prop(props, "db-name"), q);
    if IsSet(props, "db-user") { GetSetDisjoint(s1, DbField("username"), props["db-user"], q); }
    if IsSet(props, "db-pass") { GetSetDisjoint(s2, DbField("password"), props["db-pass"], q); }
    if IsSet(props, "db-host") { GetSetDisjoint(s3, DbField("host"), props["db-host"], q); }
    AfterConnectionKeeps(PatchConnection(base, props), props, q);
  }

  /** `p` and `q` agree on `key`: both lack it, or both hold the same value. */
  predicate SameProp(p: Props, q: Props, key: string) {
    (key in p <==> key in q) && Prop(p, key) == Prop(q, key)
  }

  /** The database part of the settings reads no property but the five `db-` ones. */
  lemma DatabasesReadDbKeys(base: Value, p: Props, q: Props)
    requires SameProp(p, q, "db-name") && SameProp(p, q, "db-user") && SameProp(p, q, "db-pass")
    requires SameProp(p, q, "db-host") && SameProp(p, q, "db-upgrade")
    ensures AddUpgrade(PatchConnection(base, p), p) == AddUpgrade(PatchConnection(base, q), q)
  {
    SamePropValues(p, q, "db-name");
    SamePropValues(p, q, "db-user");
    SamePropValues(p, q, "db-pass");
    SamePropValues(p, q, "db-host");
    SamePropValues(p, q, "db-upgrade");
    var patched := PatchConnection(base, p);
    assert patched == PatchConnection(base, q);
    assert UpgradeWanted(p) == UpgradeWanted(q);
  }

  /** Agreeing on `key` means agreeing on `isset` and on the stored value. */
  lemma SamePropValues(p: Props, q: Props, key: string)
    requires SameProp(p, q, key)
    ensures IsSet(p, key) == IsSet(q, key)
    ensures key in p ==> p[key] == q[key]
  {
  }
}
