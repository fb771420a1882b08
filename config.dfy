/**
 * Configuration handling in 50_configuration_management.py: the `Config`
 * class read from the environment and a file's database section,
 * `load_config` layering environment over file over defaults,
 * `validate_config` and `get_environment_config`. The environment is a
 * map from variable names to strings and a parsed JSON file is a dict.
 */
module Config {
  import opened PyCore

  type Env = map<string, string>

  /** `os.getenv(name, default)`. */
  function GetEnv(env: Env, name: string, default: string): (r: string)
    ensures name in env ==> r == env[name]
    ensures name !in env ==> r == default
  {
    if name in env then env[name] else default
  }

  // ---------------------------------------------------------------- the Config class

  class AppSettings {
    var databaseHost: PyValue
    var databasePort: PyValue
    var apiKey: string
    var debug: bool

    constructor (databaseHost: PyValue, databasePort: PyValue, apiKey: string, debug: bool)
      ensures this.databaseHost == databaseHost && this.databasePort == databasePort
      ensures this.apiKey == apiKey && this.debug == debug
    {
      this.databaseHost := databaseHost;
      this.databasePort := databasePort;
      this.apiKey := apiKey;
      this.debug := debug;
    }
  }

  /** The database port `Config()` reads: int() of DB_PORT, 5432 when unset, or the ValueError int() raises. */
  function EnvPort(env: Env): (r: Result<int>)
    ensures "DB_PORT" in env ==> r == ParseInt(env["DB_PORT"])
    ensures "DB_PORT" !in env ==> r == Ok(5432)
  {
    DefaultDatabasePort();
    ParseInt(GetEnv(env, "DB_PORT", "5432"))
  }

  lemma DefaultDatabasePort()
    ensures ParseInt("5432") == Ok(5432)
  {
    assert NatToString(5) == "5";
    assert NatToString(54) == "54";
    assert NatToString(543) == "543";
    assert NatToString(5432) == "5432";
    ParseIntToString(5432);
  }

  /** `os.getenv("DEBUG", "false").lower() == "true"`. */
  predicate EnvDebug(env: Env)
  {
    Lower(GetEnv(env, "DEBUG", "false")) == "true"
  }

  /**
   * Config(): DB_HOST (default "localhost"), int(DB_PORT) (default 5432),
   * API_KEY (default "") and DEBUG, true only when it lowercases to "true".
   */
  method NewConfig(env: Env) returns (r: Result<AppSettings>)
    ensures r.Err? <==> EnvPort(env).Err?
    ensures r.Err? ==> r.error == EnvPort(env).error
    ensures r.Ok? ==> fresh(r.value)
    ensures r.Ok? ==> r.value.databaseHost == PyStr(GetEnv(env, "DB_HOST", "localhost"))
    ensures r.Ok? ==> r.value.databasePort == PyInt(EnvPort(env).value)
    ensures r.Ok? ==> r.value.apiKey == GetEnv(env, "API_KEY", "")
    ensures r.Ok? ==> r.value.debug == EnvDebug(env)
  {
    var port := ParseInt(GetEnv(env, "DB_PORT", "5432"));
    if port.Err? {
      return Err(port.error);
    }
    var c := new AppSettings(PyStr(GetEnv(env, "DB_HOST", "localhost")), PyInt(port.value),
                             GetEnv(env, "API_KEY", ""), Lower(GetEnv(env, "DEBUG", "false")) == "true");
    return Ok(c);
  }

  /**
   * Config.from_file: a Config() from the environment, whose host and port
   * the file's "database" section replaces where it has them. The section is
   * given already parsed; the port it holds is kept as it is, not converted.
   */
  method ConfigFromFile(env: Env, database: Option<Dict<string, PyValue>>) returns (r: Result<AppSettings>)
    ensures r.Err? <==> EnvPort(env).Err?
    ensures r.Err? ==> r.error == EnvPort(env).error
    ensures r.Ok? ==> fresh(r.value)
    ensures r.Ok? ==> r.value.databaseHost == SectionValue(database, "host", PyStr(GetEnv(env, "DB_HOST", "localhost")))
    ensures r.Ok? ==> r.value.databasePort == SectionValue(database, "port", PyInt(EnvPort(env).value))
    ensures r.Ok? ==> r.value.apiKey == GetEnv(env, "API_KEY", "") && r.value.debug == EnvDebug(env)
  {
    r := NewConfig(env);
    if r.Ok? {
      var config := r.value;
      var host := SectionValue(database, "host", config.databaseHost);
      var port := SectionValue(database, "port", config.databasePort);
      config.databaseHost, config.databasePort := host, port;
    }
  }

  /** `data["database"].get(key, fallback)`, with no section meaning the fallback. */
  function SectionValue(database: Option<Dict<string, PyValue>>, key: string, fallback: PyValue): (v: PyValue)
    ensures database.Some? && HasKey(database.value, key) ==> v == Get(database.value, key).value
    ensures (database.None? || !HasKey(database.value, key)) ==> v == fallback
  {
    if database.Some? && Get(database.value, key).Some? then Get(database.value, key).value else fallback
  }

  // ---------------------------------------------------------------- load_config

  function Defaults(): Dict<string, PyValue>
  {
    [("host", PyStr("localhost")), ("port", PyInt(8080)), ("debug", PyBool(false))]
  }

  function FileValue(file: Option<Dict<string, PyValue>>, key: string): Option<PyValue>
  {
    if file.Some? then Get(file.value, key) else None
  }

  /** The file's entry for `key` when the file has one, the default otherwise. */
  function FileOr(file: Option<Dict<string, PyValue>>, key: string, default: PyValue): (v: PyValue)
    ensures FileValue(file, key).Some? ==> v == FileValue(file, key).value
    ensures FileValue(file, key).None? ==> v == default
  {
    match FileValue(file, key)
    case Some(v) => v
    case None => default
  }

  /**
   * The configuration sources in priority order: the environment variable
   * (as a string), then the file's entry, then the built-in default.
   */
  function Layered(env: Env, file: Option<Dict<string, PyValue>>, name: string, key: string, default: PyValue): (v: PyValue)
    ensures name in env ==> v == PyStr(env[name])
    ensures name !in env && FileValue(file, key).Some? ==> v == FileValue(file, key).value
    ensures name !in env && FileValue(file, key).None? ==> v == default
  {
    if name in env then PyStr(env[name]) else FileOr(file, key, default)
  }

  function HostChoice(env: Env, file: Option<Dict<string, PyValue>>): PyValue
  {
    Layered(env, file, "HOST", "host", PyStr("localhost"))
  }

  function PortChoice(env: Env, file: Option<Dict<string, PyValue>>): PyValue
  {
    Layered(env, file, "PORT", "port", PyInt(8080))
  }

  /** The text whose lower case decides `debug`: the variable, or `str()` of the file's or default value. */
  function DebugText(env: Env, file: Option<Dict<string, PyValue>>): string
  {
    if "DEBUG" in env then env["DEBUG"] else Str(FileOr(file, "debug", PyBool(false)))
  }

  /** A dict with distinct keys whose first three are host, port and debug. */
  predicate ConfigShape(d: Dict<string, PyValue>)
  {
    UniqueKeys(d) && |d| >= 3 && Keys(d)[..3] == ["host", "port", "debug"]
  }

  lemma DefaultsShape()
    ensures ConfigShape(Defaults())
    ensures Get(Defaults(), "host") == Some(PyStr("localhost"))
    ensures Get(Defaults(), "port") == Some(PyInt(8080))
    ensures Get(Defaults(), "debug") == Some(PyBool(false))
  {
  }

  /** Putting a key keeps the dict's keys distinct and its first three keys in place. */
  lemma PutKeepsShape(d: Dict<string, PyValue>, key: string, value: PyValue)
    requires ConfigShape(d)
    ensures ConfigShape(Put(d, key, value))
  {
    PutUnique(d, key, value);
    PutKeys(d, key, value);
    assert |Keys(Put(d, key, value))| >= |Keys(d)|;
  }

  /** The defaults after `defaults.update(file_config)`: each key has the file's value if the file has the key. */
  ghost predicate MergedWith(merged: Dict<string, PyValue>, file: Option<Dict<string, PyValue>>)
  {
    forall k :: Get(merged, k) == if FileValue(file, k).Some? then FileValue(file, k) else Get(Defaults(), k)
  }

  lemma MergedValues(merged: Dict<string, PyValue>, file: Option<Dict<string, PyValue>>)
    requires MergedWith(merged, file)
    ensures Get(merged, "host") == Some(FileOr(file, "host", PyStr("localhost")))
    ensures Get(merged, "port") == Some(FileOr(file, "port", PyInt(8080)))
    ensures Get(merged, "debug") == Some(FileOr(file, "debug", PyBool(false)))
  {
    DefaultsShape();
    assert Get(merged, "host") == if FileValue(file, "host").Some? then FileValue(file, "host") else Get(Defaults(), "host");
    assert Get(merged, "port") == if FileValue(file, "port").Some? then FileValue(file, "port") else Get(Defaults(), "port");
    assert Get(merged, "debug") == if FileValue(file, "debug").Some? then FileValue(file, "debug") else Get(Defaults(), "debug");
  }

  /** `defaults.update(file_config)` on the defaults, item by item. */
  method MergeFile(file: Option<Dict<string, PyValue>>) returns (merged: Dict<string, PyValue>)
    requires file.Some? ==> UniqueKeys(file.value)
    ensures ConfigShape(merged) && MergedWith(merged, file)
  {
    DefaultsShape();
    merged := Defaults();
    if file.Some? {
      var items := file.value;
      var i := 0;
      while i < |items|
        invariant 0 <= i <= |items|
        invariant merged == Update(Defaults(), items[..i])
        invariant ConfigShape(merged)
      {
        assert items[..i + 1] == items[..i] + [items[i]];
        UpdateSnoc(Defaults(), items[..i], items[i].0, items[i].1);
        PutKeepsShape(merged, items[i].0, items[i].1);
        merged := Put(merged, items[i].0, items[i].1);
        i := i + 1;
      }
      assert items[..|items|] == items;
      UpdateDefaultsMerged(file);
    }
  }

  /** Updating the defaults with the file's items gives each key its file value, or its default. */
  lemma UpdateDefaultsMerged(file: Option<Dict<string, PyValue>>)
    requires file.Some? && UniqueKeys(file.value)
    ensures MergedWith(Update(Defaults(), file.value), file)
  {
    forall k ensures Get(Update(Defaults(), file.value), k) == if FileValue(file, k).Some? then FileValue(file, k) else Get(Defaults(), k) {
      UpdateGet(Defaults(), file.value, k);
    }
  }

  /**
   * load_config(): the defaults, updated with the file's items when the file
   * exists, then host, port and debug taken from the environment when set.
   * `int()` on the chosen port may raise; a file value that is not one of
   * the expected types passes through to `int()` and `str()` as Python does.
   */
  method LoadConfig(env: Env, file: Option<Dict<string, PyValue>>) returns (r: Result<Dict<string, PyValue>>)
    requires file.Some? ==> UniqueKeys(file.value)
    ensures r.Err? <==> IntOf(PortChoice(env, file)).Err?
    ensures r.Err? ==> r.error == IntOf(PortChoice(env, file)).error
    ensures r.Ok? ==> Get(r.value, "host") == Some(HostChoice(env, file))
    ensures r.Ok? ==> Get(r.value, "port") == Some(PyInt(IntOf(PortChoice(env, file)).value))
    ensures r.Ok? ==> Get(r.value, "debug") == Some(PyBool(Lower(DebugText(env, file)) == "true"))
    ensures r.Ok? ==> forall k :: k != "host" && k != "port" && k != "debug" ==> Get(r.value, k) == FileValue(file, k)
    ensures r.Ok? ==> ConfigShape(r.value)
  {
    var defaults := MergeFile(file);
    ghost var merged := defaults;
    MergedValues(merged, file);

    var host := if "HOST" in env then PyStr(env["HOST"]) else Get(defaults, "host").value;
    assert host == HostChoice(env, file);
    PutKeepsShape(defaults, "host", host);
    PutGet(merged, "host", host, "port");
    defaults := Put(defaults, "host", host);
    ghost var withHost := defaults;

    var portText := if "PORT" in env then PyStr(env["PORT"]) else Get(defaults, "port").value;
    assert portText == PortChoice(env, file);
    var port := IntOf(portText);
    if port.Err? {
      return Err(port.error);
    }
    PutKeepsShape(defaults, "port", PyInt(port.value));
    PutGet(merged, "host", host, "debug");
    PutGet(withHost, "port", PyInt(port.value), "debug");
    defaults := Put(defaults, "port", PyInt(port.value));
    ghost var withPort := defaults;

    var debugText := if "DEBUG" in env then env["DEBUG"] else Str(Get(defaults, "debug").value);
    assert debugText == DebugText(env, file);
    var debug := PyBool(Lower(debugText) == "true");
    PutKeepsShape(defaults, "debug", debug);
    defaults := Put(defaults, "debug", debug);

    PutGet(withPort, "debug", debug, "debug");
    PutGet(withPort, "debug", debug, "port");
    PutGet(withHost, "port", PyInt(port.value), "port");
    PutGet(withPort, "debug", debug, "host");
    PutGet(withHost, "port", PyInt(port.value), "host");
    PutGet(merged, "host", host, "host");
    forall k | k != "host" && k != "port" && k != "debug"
      ensures Get(defaults, k) == FileValue(file, k)
    {
      PutGet(merged, "host", host, k);
      PutGet(withHost, "port", PyInt(port.value), k);
      PutGet(withPort, "debug", debug, k);
      DefaultsNone(k);
    }
    return Ok(defaults);
  }

  lemma DefaultsNone(k: string)
    requires k != "host" && k != "port" && k != "debug"
    ensures Get(Defaults(), k) == None
  {
  }

  /** With nothing set and no file, load_config gives the defaults, debug off. */
  lemma LoadConfigDefaults()
    ensures HostChoice(map[], None) == PyStr("localhost")
    ensures IntOf(PortChoice(map[], None)) == Ok(8080)
    ensures Lower(DebugText(map[], None)) != "true"
  {
    assert Str(PyBool(false)) == "False";
    assert Lower("False") == "false";
  }

  /** A file value `true` for debug turns it on: `str(True).lower()` is "true". */
  lemma LoadConfigFileDebug(file: Dict<string, PyValue>)
    requires Get(file, "debug") == Some(PyBool(true))
    ensures Lower(DebugText(map[], Some(file))) == "true"
  {
    assert Str(PyBool(true)) == "True";
    assert Lower("True") == "true";
  }

  /** The environment wins over the file, which wins over the default. */
  lemma LoadConfigPrecedence(env: Env, file: Dict<string, PyValue>)
    requires Get(file, "host") == Some(PyStr("file-host"))
    ensures "HOST" in env ==> HostChoice(env, Some(file)) == PyStr(env["HOST"])
    ensures "HOST" !in env ==> HostChoice(env, Some(file)) == PyStr("file-host")
    ensures HostChoice(map[], None) == PyStr("localhost")
  {
  }

  // ---------------------------------------------------------------- validate_config

  /** `isinstance(port, int) and 1 <= port <= 65535`; `True` counts as 1. */
  predicate ValidPort(port: PyValue)
  {
    IsInt(port) && 1 <= AsInt(port) <= 65535
  }

  predicate ConfigValid(config: Dict<string, PyValue>)
  {
    HasKey(config, "host") && (HasKey(config, "port") ==> ValidPort(Get(config, "port").value))
  }

  function PortError(port: PyValue): string
  {
    "Invalid port: " + Str(port)
  }

  /** The problems validate_config collects, in the order it checks them. */
  function ConfigErrors(config: Dict<string, PyValue>): (errors: seq<string>)
    ensures errors == [] <==> ConfigValid(config)
    ensures |errors| <= 2
    ensures HasKey(config, "host") ==> "Missing 'host'" !in errors
    ensures !HasKey(config, "host") ==> errors[0] == "Missing 'host'"
    ensures HasKey(config, "port") && !ValidPort(Get(config, "port").value)
            ==> errors[|errors| - 1] == PortError(Get(config, "port").value)
    ensures !(HasKey(config, "port") && !ValidPort(Get(config, "port").value))
            ==> forall e :: e in errors ==> e == "Missing 'host'"
  {
    assert forall p :: PortError(p)[0] == 'I';
    (if HasKey(config, "host") then [] else ["Missing 'host'"])
    + (if HasKey(config, "port") && !ValidPort(Get(config, "port").value)
       then [PortError(Get(config, "port").value)] else [])
  }

  /** validate_config(config): True, or ValueError listing every problem found. */
  method ValidateConfig(config: Dict<string, PyValue>) returns (r: Result<bool>)
    ensures r.Ok? <==> ConfigValid(config)
    ensures r.Ok? ==> r.value
    ensures r.Err? ==> r.error == PyError(ValueError, "Configuration errors: " + Join(ConfigErrors(config), ", "))
  {
    var errors: seq<string> := [];
    if !HasKey(config, "host") {
      errors := errors + ["Missing 'host'"];
    }
    var port := Get(config, "port");
    if port.Some? {
      if !IsInt(port.value) || !(1 <= AsInt(port.value) <= 65535) {
        errors := errors + [PortError(port.value)];
      }
    }
    if errors != [] {
      return Err(PyError(ValueError, "Configuration errors: " + Join(errors, ", ")));
    }
    return Ok(true);
  }

  /** With both problems, both messages appear, host first. */
  lemma BothProblems(config: Dict<string, PyValue>)
    requires !HasKey(config, "host") && HasKey(config, "port") && !ValidPort(Get(config, "port").value)
    ensures Join(ConfigErrors(config), ", ")
         == "Missing 'host', Invalid port: " + Str(Get(config, "port").value)
  {
  }

  /** Ports 1 and 65535 pass; 0 and 65536 do not; neither does a numeric string. */
  lemma PortBoundaries()
    ensures ValidPort(PyInt(1)) && ValidPort(PyInt(65535))
    ensures !ValidPort(PyInt(0)) && !ValidPort(PyInt(65536))
    ensures !ValidPort(PyStr("8080"))
    ensures ValidPort(PyBool(true)) && !ValidPort(PyBool(false))
  {
  }

  /** The demo: {"host": "localhost", "port": 8080} validates. */
  lemma ValidateDemo()
    ensures ConfigValid([("host", PyStr("localhost")), ("port", PyInt(8080))])
  {
    var c := [("host", PyStr("localhost")), ("port", PyInt(8080))];
    assert c[0].0 == "host" && c[1].0 == "port";
  }

  // ---------------------------------------------------------------- get_environment_config

  datatype EnvSettings = EnvSettings(debug: bool, logLevel: string)

  function EnvironmentConfigs(): Dict<string, EnvSettings>
  {
    [("development", EnvSettings(true, "DEBUG")),
     ("staging", EnvSettings(false, "INFO")),
     ("production", EnvSettings(false, "WARNING"))]
  }

  /** get_environment_config(): the entry for ENVIRONMENT (default "development"), development when unknown. */
  function GetEnvironmentConfig(env: Env): (r: EnvSettings)
    ensures GetEnv(env, "ENVIRONMENT", "development") == "staging" ==> r == EnvSettings(false, "INFO")
    ensures GetEnv(env, "ENVIRONMENT", "development") == "production" ==> r == EnvSettings(false, "WARNING")
    ensures !(GetEnv(env, "ENVIRONMENT", "development") in {"staging", "production"}) ==> r == EnvSettings(true, "DEBUG")
  {
    var name := GetEnv(env, "ENVIRONMENT", "development");
    var configs := EnvironmentConfigs();
    match Get(configs, name)
    case Some(c) => c
    case None => EnvSettings(true, "DEBUG")
  }

  /** Debug mode is on exactly when the environment is not staging or production. */
  lemma DebugOnlyInDevelopment(env: Env)
    ensures GetEnvironmentConfig(env).debug
        <==> !("ENVIRONMENT" in env && env["ENVIRONMENT"] in {"staging", "production"})
  {
  }
}
