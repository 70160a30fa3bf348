/**
  `ConfigManager` (dataprowler/core/config.py): the configuration is the
  default file, deep-merged with the first user file found, overlaid with the
  `DATAPROWLER_` environment variables. The raw mapping and the validated
  schema are each computed on first access and cached until `reload`.

  The process (environment, working directory, home directory, package
  directory and file system) is a `Host` value; a file is what reading it
  yields. Every operation on the manager takes the manager and the host and
  returns the next manager with its result.
*/
module ConfigManager {
  import opened Values
  import opened Strings
  import opened Paths
  import opened DeepMerge
  import opened EnvOverlay
  import opened Schema

  /** What `_load_yaml_file` meets at a path: a failure to open or parse, an empty document
      (`safe_load` gives `None`), or a mapping. */
  datatype FileRead = Unreadable | EmptyDocument | Document(entries: Entries)

  /** The process the manager runs in. A path is in `files` exactly when it exists. */
  datatype Host = Host(env: Environment, packageDir: string, cwd: string, home: string, files: map<string, FileRead>)

  /** Every document on the host is free of repeated keys, as a parsed YAML mapping is. */
  predicate WellFormedHost(h: Host)
  {
    forall p :: p in h.files && h.files[p].Document? ==> WellFormed(Dict(h.files[p].entries))
  }

  const ConfigVariable: string := "DATAPROWLER_CONFIG"

  /** `os.environ.get(name)`: the value of the first variable of that name. */
  function EnvLookup(env: Environment, name: string): (r: Option<string>)
    ensures r.Some? <==> exists i :: 0 <= i < |env| && env[i].0 == name
    ensures r.Some? ==> exists i :: 0 <= i < |env| && env[i] == (name, r.value)
  {
    if |env| == 0 then None
    else if env[0].0 == name then Some(env[0].1)
    else
      var r := EnvLookup(env[1..], name);
      assert forall i :: 0 <= i < |env| - 1 ==> env[1..][i] == env[i + 1];
      assert (exists i :: 0 <= i < |env| && env[i].0 == name) ==> exists i :: 0 <= i < |env| - 1 && env[1..][i].0 == name;
      r
  }

  /** No name occurs twice, as in `os.environ`, which is a mapping. */
  predicate DistinctNames(env: Environment)
  {
    forall i, j :: 0 <= i < j < |env| ==> env[i].0 != env[j].0
  }

  /** With distinct names the lookup finds each variable's own value: the first match is the
      only one, so it is also the one the overlay applies last. */
  lemma EnvLookupDistinct(env: Environment, i: int)
    requires DistinctNames(env) && 0 <= i < |env|
    ensures EnvLookup(env, env[i].0) == Some(env[i].1)
  {
  }

  function DefaultConfigPath(h: Host): string
  {
    h.packageDir + "/settings/default.yaml"
  }

  function CwdConfigPath(h: Host): string
  {
    h.cwd + "/dataprowler_config.yaml"
  }

  function HomeConfigPath(h: Host): string
  {
    h.home + "/.dataprowler/config.yaml"
  }

  /** The user file candidates in the order they are probed. */
  function Candidates(h: Host): seq<string>
  {
    match EnvLookup(h.env, ConfigVariable)
    case Some(p) => [p, CwdConfigPath(h), HomeConfigPath(h)]
    case None => [CwdConfigPath(h), HomeConfigPath(h)]
  }

  /** The first path of `paths` that exists. */
  function FirstExisting(paths: seq<string>, files: map<string, FileRead>): (r: Option<string>)
    ensures r.None? <==> forall i :: 0 <= i < |paths| ==> paths[i] !in files
    ensures r.Some? ==> exists i :: 0 <= i < |paths| && paths[i] == r.value && r.value in files
                          && forall j :: 0 <= j < i ==> paths[j] !in files
  {
    if |paths| == 0 then None
    else if paths[0] in files then Some(paths[0])
    else
      var r := FirstExisting(paths[1..], files);
      assert forall i :: 0 <= i < |paths| - 1 ==> paths[1..][i] == paths[i + 1];
      r
  }

  /** `_get_user_config_path`. */
  function UserConfigPath(h: Host): (r: Option<string>)
    ensures r.Some? ==> r.value in h.files
  {
    FirstExisting(Candidates(h), h.files)
  }

  /** The probe order, spelled out: the path named by `DATAPROWLER_CONFIG` when it exists,
      else the working directory's file, else the home directory's file. A variable naming a
      path that does not exist falls through to the other two. */
  lemma UserConfigPathProbeOrder(h: Host)
    ensures UserConfigPath(h) ==
      if EnvLookup(h.env, ConfigVariable).Some? && EnvLookup(h.env, ConfigVariable).value in h.files
      then EnvLookup(h.env, ConfigVariable)
      else if CwdConfigPath(h) in h.files then Some(CwdConfigPath(h))
      else if HomeConfigPath(h) in h.files then Some(HomeConfigPath(h))
      else None
  {
    var c := Candidates(h);
    var cwd, home := CwdConfigPath(h), HomeConfigPath(h);
    var f := h.files;
    assert FirstExisting([home], f) == if home in f then Some(home) else None by {
      assert [home][1..] == [];
    }
    assert FirstExisting([cwd, home], f) == if cwd in f then Some(cwd) else FirstExisting([home], f) by {
      assert [cwd, home][1..] == [home];
    }
    match EnvLookup(h.env, ConfigVariable)
    case Some(p) =>
      assert c == [p, cwd, home];
      assert c[1..] == [cwd, home];
    case None =>
      assert c == [cwd, home];
  }

  /** `_load_yaml_file`: the document's mapping, or an empty one when the file cannot be read
      or holds nothing. */
  function LoadYaml(f: FileRead): Entries
  {
    match f
    case Document(e) => e
    case _ => []
  }

  /** Reading a path that does not exist fails like any other unreadable file. */
  function ReadFile(h: Host, path: string): FileRead
  {
    if path in h.files then h.files[path] else Unreadable
  }

  function DefaultDocument(h: Host): Entries
  {
    LoadYaml(ReadFile(h, DefaultConfigPath(h)))
  }

  function UserDocument(h: Host): Entries
  {
    match UserConfigPath(h)
    case Some(p) => LoadYaml(h.files[p])
    case None => []
  }

  lemma DocumentsWellFormed(h: Host)
    requires WellFormedHost(h)
    ensures WellFormed(Dict(DefaultDocument(h))) && WellFormed(Dict(UserDocument(h)))
  {
  }

  /** `load_config`: defaults, then the user file over them, then the environment over both.
      The overlay raises when a variable's path runs through a non-mapping. */
  function LoadConfig(h: Host): (r: Result<Entries, PathError>)
    ensures NoOverlayNames(h.env) ==> r == Ok(Merge(DefaultDocument(h), UserDocument(h)))
    ensures r.Err? ==> exists i :: 0 <= i < |h.env| && IsOverlayName(h.env[i].0) && r.error.at < KeyPath(h.env[i].0)
  {
    LoadEnvVars(Merge(DefaultDocument(h), UserDocument(h)), h.env)
  }

  /** The environment has the last word: a prefixed variable that no later prefixed variable
      lies on one line with is read back, coerced, at its path. */
  lemma LoadConfigEnvWins(h: Host, i: int)
    requires LoadConfig(h).Ok?
    requires 0 <= i < |h.env| && IsOverlayName(h.env[i].0)
    requires forall j :: i < j < |h.env| && IsOverlayName(h.env[j].0) ==>
               !Comparable(KeyPath(h.env[j].0), KeyPath(h.env[i].0))
    ensures Walk(Dict(LoadConfig(h).value), KeyPath(h.env[i].0)) == Some(Coerce(h.env[i].1))
  {
    LoadEnvVarsWins(Merge(DefaultDocument(h), UserDocument(h)), h.env, i);
  }

  /** No prefixed variable's path is on or below `q`, nor a proper prefix of it. */
  predicate EnvClear(env: Environment, q: Path)
  {
    forall i :: 0 <= i < |env| && IsOverlayName(env[i].0) ==> !(KeyPath(env[i].0) <= q) && !(q < KeyPath(env[i].0))
  }

  /** The user file beats the defaults: where it holds a non-mapping, that is what the
      configuration holds, unless the environment touches the location. */
  lemma LoadConfigUserWins(h: Host, q: Path, x: Value)
    requires WellFormedHost(h) && LoadConfig(h).Ok?
    requires |q| >= 1 && Walk(Dict(UserDocument(h)), q) == Some(x) && !x.Dict?
    requires EnvClear(h.env, q)
    ensures Walk(Dict(LoadConfig(h).value), q) == Some(x)
  {
    DocumentsWellFormed(h);
    var merged := Merge(DefaultDocument(h), UserDocument(h));
    MergeWalkOverlay(DefaultDocument(h), UserDocument(h), q, x);
    LoadEnvVarsFrame(merged, h.env, q);
  }

  /** The defaults show through wherever the user file and the environment are silent. */
  lemma LoadConfigDefaultShows(h: Host, q: Path)
    requires WellFormedHost(h) && LoadConfig(h).Ok?
    requires |q| >= 1 && Silent(UserDocument(h), q)
    requires EnvClear(h.env, q)
    ensures Walk(Dict(LoadConfig(h).value), q) == Walk(Dict(DefaultDocument(h)), q)
  {
    DocumentsWellFormed(h);
    var merged := Merge(DefaultDocument(h), UserDocument(h));
    MergeWalkBase(DefaultDocument(h), UserDocument(h), q);
    LoadEnvVarsFrame(merged, h.env, q);
  }

  /** A user file that is missing, unreadable or empty contributes nothing: the configuration
      is the environment over the defaults alone. */
  lemma LoadConfigWithoutUserFile(h: Host)
    requires WellFormedHost(h)
    requires UserConfigPath(h).None? || !h.files[UserConfigPath(h).value].Document?
    ensures UserDocument(h) == []
    ensures LoadConfig(h) == LoadEnvVars(DefaultDocument(h), h.env)
  {
    DocumentsWellFormed(h);
    MergeIdentities(DefaultDocument(h));
  }

  /** The loaded configuration has no repeated keys at any level. */
  lemma LoadConfigWellFormed(h: Host)
    requires WellFormedHost(h) && LoadConfig(h).Ok?
    ensures WellFormed(Dict(LoadConfig(h).value))
  {
    DocumentsWellFormed(h);
    MergeWellFormed(DefaultDocument(h), UserDocument(h));
    LoadEnvVarsWellFormed(Merge(DefaultDocument(h), UserDocument(h)), h.env);
  }

  // ---------------------------------------------------------------------------
  // The manager and its caches.

  /** `_config` and `_config_model`; `None` until computed. */
  datatype Manager = Manager(config: Option<Entries>, model: Option<ConfigSchema>)

  const Fresh := Manager(None, None)

  /** Why the validated schema is unavailable: loading raised, or validation did. */
  datatype ConfigError = LoadFailed(loadError: PathError) | Invalid(schemaError: SchemaError)

  /** The validation step of `config_model`: a loading failure passes through, otherwise the
      mapping is validated against the schema. */
  function Check(c: Result<Entries, PathError>): (r: Result<ConfigSchema, ConfigError>)
    ensures r.Ok? ==> c.Ok? && Validate(c.value) == Ok(r.value) && Valid(r.value)
    ensures c.Err? ==> r == Err(LoadFailed(c.error))
    ensures c.Ok? && Validate(c.value).Err? ==> r == Err(Invalid(Validate(c.value).error))
  {
    match c
    case Err(e) => Err(LoadFailed(e))
    case Ok(raw) => (
      match Validate(raw)
      case Err(e) => Err(Invalid(e))
      case Ok(s) => Ok(s))
  }

  /** What an uncached manager would give: the loaded configuration, validated. */
  function Resolve(h: Host): Result<ConfigSchema, ConfigError>
  {
    Check(LoadConfig(h))
  }

  /** The caches agree with what the host yields now. */
  predicate Coherent(m: Manager, h: Host)
  {
    (m.config.Some? ==> LoadConfig(h) == Ok(m.config.value))
    && (m.model.Some? ==> Resolve(h) == Ok(m.model.value))
  }

  lemma FreshCoherent(h: Host)
    ensures Coherent(Fresh, h)
  {
  }

  /** The public `load_config`: loads and caches the mapping, leaving the schema cache alone;
      when loading raises, nothing is cached. */
  function LoadConfigOp(m: Manager, h: Host): (r: (Manager, Result<Entries, PathError>))
    ensures r.1 == LoadConfig(h)
    ensures r.0.model == m.model
    ensures r.1.Ok? ==> r.0.config == Some(r.1.value)
    ensures r.1.Err? ==> r.0 == m
    ensures Coherent(m, h) ==> Coherent(r.0, h)
  {
    match LoadConfig(h)
    case Ok(c) => (m.(config := Some(c)), Ok(c))
    case Err(e) => (m, Err(e))
  }

  /** The `config` property: the cached mapping, loading it first when there is none. */
  function Config(m: Manager, h: Host): (r: (Manager, Result<Entries, PathError>))
    ensures Coherent(m, h) ==> r.1 == LoadConfig(h) && Coherent(r.0, h)
    ensures m.config.Some? ==> r == (m, Ok(m.config.value))
    ensures r.0.model == m.model
    ensures r.1.Ok? ==> r.0.config == Some(r.1.value)
  {
    if m.config.Some? then (m, Ok(m.config.value)) else LoadConfigOp(m, h)
  }

  /** The `config_model` property: the cached schema, validating the mapping first when there
      is none. A failed validation caches no schema, so the next access validates again. */
  function ConfigModel(m: Manager, h: Host): (r: (Manager, Result<ConfigSchema, ConfigError>))
    ensures Coherent(m, h) ==> r.1 == Resolve(h) && Coherent(r.0, h)
    ensures m.model.Some? ==> r == (m, Ok(m.model.value))
    ensures r.1.Ok? ==> r.0.model == Some(r.1.value)
    ensures r.1.Err? ==> r.0.model.None?
    ensures m.model.None? ==> r.0.config == Config(m, h).0.config
  {
    if m.model.Some? then (m, Ok(m.model.value))
    else
      var (m1, c) := Config(m, h);
      var s := Check(c);
      (if s.Ok? then m1.(model := Some(s.value)) else m1, s)
  }

  /** `reload`: both caches dropped, then loaded again; the result never depends on the caches. */
  function Reload(m: Manager, h: Host): (r: (Manager, Result<Entries, PathError>))
    ensures r.1 == LoadConfig(h)
    ensures r.0.model.None? && Coherent(r.0, h)
    ensures r.1.Ok? ==> r.0.config == Some(r.1.value)
    ensures r.1.Err? ==> r.0 == Fresh
  {
    LoadConfigOp(Fresh, h)
  }

  /** The descent of `get_setting` along a dotted path, `default` when it falls off. */
  function Lookup(c: Entries, path: string, default: Value): Value
  {
    match Walk(Dict(c), Split(path, '.'))
    case Some(v) => v
    case None => default
  }

  /** `get_setting(path, default)`: reads through the `config` property, so it loads on first use. */
  function GetSetting(m: Manager, h: Host, path: string, default: Value): (r: (Manager, Result<Value, PathError>))
    ensures Coherent(m, h) ==> Coherent(r.0, h)
    ensures Coherent(m, h) && LoadConfig(h).Ok? ==> r.1 == Ok(Lookup(LoadConfig(h).value, path, default))
    ensures Coherent(m, h) && LoadConfig(h).Err? ==> r.1 == Err(LoadConfig(h).error)
  {
    var (m1, c) := Config(m, h);
    match c
    case Err(e) => (m1, Err(e))
    case Ok(raw) => (m1, Ok(Lookup(raw, path, default)))
  }

  /** Once the mapping is cached, the host is no longer consulted: changes to files or the
      environment stay invisible until `reload`. */
  lemma ConfigIgnoresHost(m: Manager, h: Host, h': Host, path: string, default: Value)
    requires m.config.Some?
    ensures Config(m, h) == Config(m, h')
    ensures GetSetting(m, h, path, default) == GetSetting(m, h', path, default)
  {
  }

  /** A second access changes nothing: the first one filled the cache. */
  lemma ConfigIdempotent(m: Manager, h: Host)
    requires Config(m, h).1.Ok?
    ensures Config(Config(m, h).0, h) == Config(m, h)
  {
  }

  lemma ConfigModelIdempotent(m: Manager, h: Host)
    requires ConfigModel(m, h).1.Ok?
    ensures ConfigModel(ConfigModel(m, h).0, h) == ConfigModel(m, h)
  {
  }

  /** The dotted path of a variable's key path reads the variable's coerced value, provided
      no part of the key path contains a dot. */
  lemma GetSettingSeesEnv(h: Host, i: int, default: Value)
    requires LoadConfig(h).Ok?
    requires 0 <= i < |h.env| && IsOverlayName(h.env[i].0)
    requires forall j :: i < j < |h.env| && IsOverlayName(h.env[j].0) ==>
               !Comparable(KeyPath(h.env[j].0), KeyPath(h.env[i].0))
    requires forall j :: 0 <= j < |KeyPath(h.env[i].0)| ==> '.' !in KeyPath(h.env[i].0)[j]
    ensures GetSetting(Fresh, h, Join(KeyPath(h.env[i].0), '.'), default).1 == Ok(Coerce(h.env[i].1))
  {
    var p := KeyPath(h.env[i].0);
    SplitJoin(p, '.');
    LoadConfigEnvWins(h, i);
  }

  /** A path the configuration does not reach gives the caller's default. */
  lemma GetSettingDefault(m: Manager, h: Host, path: string, default: Value)
    requires Coherent(m, h) && LoadConfig(h).Ok?
    requires Walk(Dict(LoadConfig(h).value), Split(path, '.')).None?
    ensures GetSetting(m, h, path, default).1 == Ok(default)
  {
  }

  /** A fresh manager's `get_setting` reads what the loaded configuration holds at the path. */
  lemma GetSettingAt(h: Host, path: string, q: Path, x: Value, default: Value)
    requires LoadConfig(h).Ok? && Split(path, '.') == q
    requires Walk(Dict(LoadConfig(h).value), q) == Some(x)
    ensures GetSetting(Fresh, h, path, default).1 == Ok(x)
  {
    FreshCoherent(h);
  }

  // ---------------------------------------------------------------------------
  // Worked scenarios.

  const PackageDir := "/pkg"
  const DefaultFile := Document([("api", Dict([("host", Str("0.0.0.0")), ("port", Int(8000))]))])
  const UserFile := Document([("api", Dict([("port", Int(9001))]))])

  function Machine(env: Environment, files: map<string, FileRead>): Host
  {
    Host(env, PackageDir, "/work", "/home/u", files)
  }

  lemma SplitApiPort()
    ensures Split("api.port", '.') == ["api", "port"]
    ensures Split("api.host", '.') == ["api", "host"]
  {
    assert Join(["api", "port"], '.') == "api.port";
    SplitJoin(["api", "port"], '.');
    assert Join(["api", "host"], '.') == "api.host";
    SplitJoin(["api", "host"], '.');
  }

  /** With no file anywhere the raw mapping is empty, so `get_setting` falls back to the
      caller's default, while the validated schema carries the schema's own default port. */
  lemma NoFilesScenario()
    ensures LoadConfig(Machine([], map[])) == Ok([])
    ensures GetSetting(Fresh, Machine([], map[]), "api.port", Int(9999)).1 == Ok(Int(9999))
    ensures ConfigModel(Fresh, Machine([], map[])).1 == Ok(Defaults)
    ensures Defaults.api.port == 8000
  {
    NoFilesLoad();
    var h := Machine([], map[]);
    FreshCoherent(h);
    SplitApiPort();
    GetSettingDefault(Fresh, h, "api.port", Int(9999));
    ValidateEmpty();
  }

  lemma NoFilesLoad()
    ensures LoadConfig(Machine([], map[])) == Ok([])
  {
    var h := Machine([], map[]);
    assert UserConfigPath(h) == None;
  }

  const DefaultPath := PackageDir + "/settings/default.yaml"
  const CwdPath := "/work" + "/dataprowler_config.yaml"

  function UserFileMachine(env: Environment): Host
  {
    Machine(env, map[DefaultPath := DefaultFile, CwdPath := UserFile])
  }

  lemma UserFileDocuments()
    ensures WellFormedHost(UserFileMachine([]))
    ensures DefaultDocument(UserFileMachine([])) == DefaultFile.entries
    ensures UserDocument(UserFileMachine([])) == UserFile.entries
  {
    var h := UserFileMachine([]);
    assert DefaultPath[1] != CwdPath[1];
    assert h.files[DefaultPath] == DefaultFile;
    assert h.files[CwdPath] == UserFile;
    assert Candidates(h) == [CwdPath, HomeConfigPath(h)];
    assert UserConfigPath(h) == Some(CwdPath);
    assert WellFormed(Dict(DefaultFile.entries)) by {
      assert DefaultFile.entries[0].1 == Dict([("host", Str("0.0.0.0")), ("port", Int(8000))]);
    }
  }

  lemma UserFileWalks()
    ensures Walk(Dict(UserFile.entries), ["api", "port"]) == Some(Int(9001))
    ensures Silent(UserFile.entries, ["api", "host"])
  {
    var user := UserFile.entries;
    var api := [("port", Int(9001))];
    assert Get(user, "api") == Some(Dict(api));
    assert "port" != "host" by { assert "port"[0] != "host"[0]; }
    WalkStep(user, ["api", "port"]);
    WalkStep(user, ["api", "host"]);
    WalkStep(api, ["port"]);
    WalkStep(api, ["host"]);
    forall i | 1 <= i < 2 ensures !Blocked(user, ["api", "host"][..i]) {
      assert ["api", "host"][..1] == ["api"];
      WalkStep(user, ["api"]);
    }
  }

  lemma DefaultFileWalk()
    ensures Walk(Dict(DefaultFile.entries), ["api", "host"]) == Some(Str("0.0.0.0"))
  {
    var api := [("host", Str("0.0.0.0")), ("port", Int(8000))];
    assert Get(DefaultFile.entries, "api") == Some(Dict(api));
    WalkStep(DefaultFile.entries, ["api", "host"]);
    WalkStep(api, ["host"]);
  }

  /** The merged mapping: the user's port, the default's host. */
  lemma UserFileLoad()
    ensures LoadConfig(UserFileMachine([])).Ok?
    ensures Walk(Dict(LoadConfig(UserFileMachine([])).value), ["api", "port"]) == Some(Int(9001))
    ensures Walk(Dict(LoadConfig(UserFileMachine([])).value), ["api", "host"]) == Some(Str("0.0.0.0"))
  {
    var h := UserFileMachine([]);
    UserFileDocuments();
    UserFileWalks();
    DefaultFileWalk();
    LoadConfigUserWins(h, ["api", "port"], Int(9001));
    LoadConfigDefaultShows(h, ["api", "host"]);
  }

  /** A user file in the working directory overrides the default port and keeps the default
      host beside it. */
  lemma UserFileScenario()
    ensures GetSetting(Fresh, UserFileMachine([]), "api.port", Null).1 == Ok(Int(9001))
    ensures GetSetting(Fresh, UserFileMachine([]), "api.host", Null).1 == Ok(Str("0.0.0.0"))
  {
    SplitApiPort();
    UserFileLoad();
    GetSettingAt(UserFileMachine([]), "api.port", ["api", "port"], Int(9001), Null);
    GetSettingAt(UserFileMachine([]), "api.host", ["api", "host"], Str("0.0.0.0"), Null);
  }

  /** A user file that sets the scraping timeout, and a variable that sets it again. */
  const TimeoutFile := Document([("scraping", Dict([("timeout", Int(10))]))])

  function TimeoutMachine(): Host
  {
    Machine([("DATAPROWLER_SCRAPING_TIMEOUT", "30")], map[CwdPath := TimeoutFile])
  }

  lemma TimeoutLoads()
    ensures LoadConfig(TimeoutMachine()).Ok?
  {
    var h := TimeoutMachine();
    assert h.env[0].0[12] != ConfigVariable[12];
    assert EnvLookup(h.env, ConfigVariable) == None;
    assert DefaultPath[1] != CwdPath[1];
    assert Candidates(h) == [CwdPath, HomeConfigPath(h)];
    assert UserConfigPath(h) == Some(CwdPath);
    var user := TimeoutFile.entries;
    MergeIntoEmpty(user);
    KeyPathScraping();
    var p := ["scraping", "timeout"];
    assert EnvWrites(h.env) == [(p, Coerce("30"))];
    SetPathOkIff(user, p, Coerce("30"));
    forall i | 1 <= i < 2 ensures !Blocked(user, p[..i]) {
      assert p[..1] == ["scraping"];
      WalkStep(user, ["scraping"]);
    }
  }

  lemma TimeoutWalk()
    ensures LoadConfig(TimeoutMachine()).Ok?
    ensures Walk(Dict(LoadConfig(TimeoutMachine()).value), ["scraping", "timeout"]) == Some(Int(30))
  {
    TimeoutLoads();
    KeyPathScraping();
    CoerceIntExamples();
    LoadConfigEnvWins(TimeoutMachine(), 0);
  }

  lemma SplitScrapingTimeout()
    ensures Split("scraping.timeout", '.') == ["scraping", "timeout"]
  {
    var p := ["scraping", "timeout"];
    assert '.' !in p[0] && '.' !in p[1];
    assert Join(p, '.') == "scraping.timeout";
    SplitJoin(p, '.');
  }

  /** The variable beats the user file, and `get_setting` reads it at the dotted path. */
  lemma EnvScenario()
    ensures GetSetting(Fresh, TimeoutMachine(), "scraping.timeout", Null).1 == Ok(Int(30))
  {
    TimeoutWalk();
    SplitScrapingTimeout();
    GetSettingAt(TimeoutMachine(), "scraping.timeout", ["scraping", "timeout"], Int(30), Null);
  }
}
