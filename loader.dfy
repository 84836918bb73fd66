/** `Loader`: resolves the project's paths into `$_ENV`, loads `.env`, merges
    the `.const` cascade, defines constants first-write-wins, checks the
    required names, derives the WordPress path constants, gates on the core
    directory and fills in defaults; `debugSettings` derives the log paths.

    The process state it changes (the constant table and `$_ENV`) is held by
    the class; the filesystem, `$_SERVER` and the dotenv library are inputs. */
module WordpressLoader {
  import opened Values
  import opened Cascade
  import opened Constants

  /** What `Dotenv::loadEnv` does with the project's `.env` file: it makes
      `APP_ENV` known, or fails because the file cannot be read or parsed. */
  datatype EnvOutcome =
    | EnvLoaded(appEnv: string)
    | EnvUnreadable(message: string)
    | EnvMalformed(message: string)

  /** The dotenv library object the loader holds. */
  datatype Dotenv = Dotenv(parse: Parser, loadEnv: string -> EnvOutcome)

  /** `$_SERVER['DOCUMENT_ROOT']` and `dirname` of it. */
  datatype Server = Server(documentRoot: string, documentRootParent: string)

  /** How a call ends: normally, or by throwing. */
  datatype Outcome = Done | Fail(error: LoadError)

  /** The process-wide state: the constants and `$_ENV`. */
  datatype Process = Process(consts: Table, env: Table)

  /** The constants `load` derives from others. */
  const DERIVED_CONSTANTS: set<string> := {"WP_CONTENT_DIR", "WP_CONTENT_URL", "ABSPATH"}

  /** `$_ENV[key]` used as a string; an unset key reads as null, i.e. "". */
  function EnvString(env: Table, key: string): (r: string)
  {
    if key in env then ToStr(env[key]) else ""
  }

  /** `$explicit ?? $_ENV[key] ?? $fallback`. */
  function RootValue(explicit: Option<string>, env: Table, key: string, fallback: string): (r: Value)
  {
    match explicit
    case Some(path) => Str(path)
    case None => if key in env then env[key] else Str(fallback)
  }

  /** `$_ENV` after the two `addEnv` calls that open `load`. */
  function ResolveRoots(env: Table, server: Server, projectRootPath: Option<string>, publicDirPath: Option<string>)
    : (r: Table)
    ensures r.Keys == env.Keys + {"PROJECT_ROOT", "WEB_ROOT"}
    ensures r["PROJECT_ROOT"] == Coerce(
      if projectRootPath.Some? then Str(projectRootPath.value)
      else if "PROJECT_ROOT" in env then env["PROJECT_ROOT"]
      else Str(server.documentRootParent))
    ensures r["WEB_ROOT"] == Coerce(
      if publicDirPath.Some? then Str(publicDirPath.value)
      else if "WEB_ROOT" in env then env["WEB_ROOT"]
      else Str(server.documentRoot))
    ensures forall k :: k in env && k != "PROJECT_ROOT" && k != "WEB_ROOT" ==> r[k] == env[k]
  {
    assert |"WEB_ROOT"| != |"PROJECT_ROOT"|;
    var env1 := env["PROJECT_ROOT" := Coerce(RootValue(projectRootPath, env, "PROJECT_ROOT", server.documentRootParent))];
    env1["WEB_ROOT" := Coerce(RootValue(publicDirPath, env1, "WEB_ROOT", server.documentRoot))]
  }

  /** The three derived definitions of `load`, each first-write-wins. */
  function DeriveCore(c: Table, env: Table, wpCorePath: string): (r: Table)
    requires "WP_HOME" in c && "CONTENT_DIR" in c
    ensures r.Keys == c.Keys + DERIVED_CONSTANTS
    ensures forall k :: k in c ==> r[k] == c[k]
  {
    var webRoot := EnvString(env, "WEB_ROOT");
    var c1 := Define(c, "WP_CONTENT_DIR", Str(webRoot + ToStr(c["CONTENT_DIR"])));
    var c2 := Define(c1, "WP_CONTENT_URL", Str(ToStr(c1["WP_HOME"]) + ToStr(c1["CONTENT_DIR"])));
    Define(c2, "ABSPATH", Str(webRoot + wpCorePath + "/"))
  }

  /** `is_dir(ABSPATH)`: a boolean argument is a TypeError under strict types. */
  function CoreDirCheck(c: Table, fs: FileSystem): (r: Outcome)
    requires "ABSPATH" in c
    ensures r == Done <==> c["ABSPATH"].Str? && IsDir(fs, c["ABSPATH"].s)
    ensures c["ABSPATH"].Bool? ==> r == Fail(TypeError("is_dir"))
    ensures c["ABSPATH"].Str? && !IsDir(fs, c["ABSPATH"].s)
      ==> r == Fail(PathError("Unable to find wordpress core directory \"" + c["ABSPATH"].s + "\"."))
  {
    match c["ABSPATH"]
    case Bool(_) => Fail(TypeError("is_dir"))
    case Str(path) =>
      if IsDir(fs, path) then Done
      else Fail(PathError("Unable to find wordpress core directory \"" + path + "\"."))
  }

  /** `load` after validation: the derived constants, the core-directory
      gate, then the defaults. Returns the outcome and the constant table. */
  function DerivedAndDefaults(c: Table, env: Table, fs: FileSystem, wpCorePath: string): (r: (Outcome, Table))
    requires "WP_HOME" in c && "CONTENT_DIR" in c
  {
    var c1 := DeriveCore(c, env, wpCorePath);
    var check := CoreDirCheck(c1, fs);
    if check.Fail? then (check, c1)
    else (Done, DefineAll(c1, DEFAULT_CONSTANTS))
  }

  /** `load` from `checkRequirements` on: the first missing required name
      ends it, otherwise the derived constants and the rest follow. Returns
      the outcome and the constant table. */
  function Validated(c: Table, env: Table, fs: FileSystem, wpCorePath: string): (r: (Outcome, Table))
  {
    var missing := FirstMissing(REQUIRED_CONSTANTS, c);
    if missing.Some? then (Fail(MissingConstant(missing.value)), c)
    else
      assert REQUIRED_CONSTANTS[3] == "WP_HOME" && REQUIRED_CONSTANTS[5] == "CONTENT_DIR";
      DerivedAndDefaults(c, env, fs, wpCorePath)
  }

  /** `load` once `.env` has given `APP_ENV`: the cascade, then the rest.
      Returns the outcome and the process state. */
  function LoadConstantsSpec(c: Table, env: Table, appEnv: string, dotenv: Dotenv, fs: FileSystem, wpCorePath: string)
    : (r: (Outcome, Process))
  {
    var merged := MergeCascade(dotenv.parse, fs, CascadePaths(EnvString(env, "PROJECT_ROOT"), appEnv), map[]);
    if merged.Err? then (Fail(merged.error), Process(c, env))
    else
      var after := Validated(DefineAll(c, AsValues(merged.value)), env, fs, wpCorePath);
      (after.0, Process(after.1, env))
  }

  /** The whole of `load`: its outcome and the process state it leaves. */
  function LoadSpec(p: Process, dotenv: Dotenv, fs: FileSystem, server: Server, wpCorePath: string,
                    projectRootPath: Option<string>, publicDirPath: Option<string>): (r: (Outcome, Process))
  {
    var env1 := ResolveRoots(p.env, server, projectRootPath, publicDirPath);
    match dotenv.loadEnv(EnvString(env1, "PROJECT_ROOT") + "/.env")
    case EnvUnreadable(message) => (Fail(PathError(message)), Process(p.consts, env1))
    case EnvMalformed(message) => (Fail(ParseError(message)), Process(p.consts, env1))
    case EnvLoaded(appEnv) =>
      LoadConstantsSpec(p.consts, env1["APP_ENV" := Str(appEnv)], appEnv, dotenv, fs, wpCorePath)
  }

  /** The whole of `debugSettings`: the outcome (the filesystem after the
      `mkdir`, or the error) and the constant table it leaves. */
  function DebugSpec(c: Table, env: Table, fs: FileSystem, logPath: string): (r: (Result<FileSystem>, Table))
  {
    var c1 := Define(c, "WP_DEBUG_DIR", Str(EnvString(env, "PROJECT_ROOT") + logPath));
    var c2 := Define(c1, "WP_DEBUG_LOG", Str(ToStr(c1["WP_DEBUG_DIR"]) + "/" + EnvString(env, "APP_ENV") + ".log"));
    match c2["WP_DEBUG_DIR"]
    case Bool(_) => (Err(TypeError("file_exists")), c2)
    case Str(dir) => (Ok(if FileExists(fs, dir) then fs else fs.(dirs := fs.dirs + {dir})), c2)
  }

  class Loader {
    /** The dotenv library object. */
    const dotenv: Dotenv
    /** The process's constants: written once per name. */
    var consts: Table
    /** `$_ENV`. */
    var env: Table

    /** A loader over the process's current constants and environment. */
    constructor (dotenv: Dotenv, consts: Table, env: Table)
      ensures this.dotenv == dotenv && this.consts == consts && this.env == env
    {
      this.dotenv := dotenv;
      this.consts := consts;
      this.env := env;
    }

    /** `addEnv`: sets `$_ENV[key]` to the coerced value. */
    method AddEnv(key: string, value: Value)
      modifies this`env
      ensures env == old(env)[key := Coerce(value)]
    {
      env := env[key := Coerce(value)];
    }

    /** `defineConstant`: defines `name` unless it is already defined. */
    method DefineConstant(name: string, value: Value)
      modifies this`consts
      ensures consts == Define(old(consts), name, value)
    {
      if name !in consts {
        consts := consts[name := Coerce(value)];
      }
    }

    /** `defineConstants`: merges the four `.const` files and defines every
      merged variable; a parse error defines nothing. */
    method DefineConstants(fs: FileSystem, appEnv: string) returns (r: Outcome)
      modifies this`consts
      ensures var merged := MergeCascade(dotenv.parse, fs, CascadePaths(EnvString(env, "PROJECT_ROOT"), appEnv), map[]);
        && (merged.Err? ==> r == Fail(merged.error) && consts == old(consts))
        && (merged.Ok? ==> r == Done && consts == DefineAll(old(consts), AsValues(merged.value)))
    {
      var paths := CascadePaths(EnvString(env, "PROJECT_ROOT"), appEnv);
      var constants := MergeCascade(dotenv.parse, fs, paths, map[]);
      match constants {
        case Err(e) =>
          r := Fail(e);
        case Ok(merged) =>
          var entries := AsValues(merged);
          var todo := entries.Keys;
          while todo != {}
            invariant todo <= entries.Keys
            invariant consts == DefineAll(old(consts), Restrict(entries, entries.Keys - todo))
            decreases todo
          {
            var name :| name in todo;
            DefineAllStep(old(consts), entries, entries.Keys - todo, name);
            assert entries.Keys - (todo - {name}) == (entries.Keys - todo) + {name};
            DefineConstant(name, entries[name]);
            todo := todo - {name};
          }
          assert Restrict(entries, entries.Keys - todo) == entries;
          r := Done;
      }
    }

    /** `checkRequirements`: the first required name that is not a defined
      constant, or None when all of them are. */
    method CheckRequirements() returns (missing: Option<string>)
      ensures missing.None? <==> forall i :: 0 <= i < |REQUIRED_CONSTANTS| ==> REQUIRED_CONSTANTS[i] in consts
      ensures missing.Some? ==>
        exists i :: 0 <= i < |REQUIRED_CONSTANTS| && REQUIRED_CONSTANTS[i] == missing.value
          && missing.value !in consts && forall j :: 0 <= j < i ==> REQUIRED_CONSTANTS[j] in consts
      ensures missing == FirstMissing(REQUIRED_CONSTANTS, consts)
    {
      for i := 0 to |REQUIRED_CONSTANTS|
        invariant forall j :: 0 <= j < i ==> REQUIRED_CONSTANTS[j] in consts
      {
        if REQUIRED_CONSTANTS[i] !in consts {
          return Some(REQUIRED_CONSTANTS[i]);
        }
      }
      return None;
    }

    /** `defineDefaultConstants`: offers every default to `defineConstant`. */
    method DefineDefaultConstants()
      modifies this`consts
      ensures consts == DefineAll(old(consts), DEFAULT_CONSTANTS)
    {
      var todo := DEFAULT_CONSTANTS.Keys;
      while todo != {}
        invariant todo <= DEFAULT_CONSTANTS.Keys
        invariant consts == DefineAll(old(consts), Restrict(DEFAULT_CONSTANTS, DEFAULT_CONSTANTS.Keys - todo))
        decreases todo
      {
        var name :| name in todo;
        DefineAllStep(old(consts), DEFAULT_CONSTANTS, DEFAULT_CONSTANTS.Keys - todo, name);
        assert DEFAULT_CONSTANTS.Keys - (todo - {name}) == (DEFAULT_CONSTANTS.Keys - todo) + {name};
        DefineConstant(name, DEFAULT_CONSTANTS[name]);
        todo := todo - {name};
      }
      assert Restrict(DEFAULT_CONSTANTS, DEFAULT_CONSTANTS.Keys - todo) == DEFAULT_CONSTANTS;
    }

    /** The rest of `load` once the required names are defined: the three
      derived constants, the `is_dir(ABSPATH)` gate, then the defaults. */
    method DefineDerivedConstants(fs: FileSystem, wpCorePath: string) returns (r: Outcome)
      requires "WP_HOME" in consts && "CONTENT_DIR" in consts
      modifies this`consts
      ensures (r, consts) == DerivedAndDefaults(old(consts), env, fs, wpCorePath)
    {
      DefineConstant("WP_CONTENT_DIR", Str(EnvString(env, "WEB_ROOT") + ToStr(consts["CONTENT_DIR"])));
      DefineConstant("WP_CONTENT_URL", Str(ToStr(consts["WP_HOME"]) + ToStr(consts["CONTENT_DIR"])));
      DefineConstant("ABSPATH", Str(EnvString(env, "WEB_ROOT") + wpCorePath + "/"));
      r := CoreDirCheck(consts, fs);
      if r.Done? {
        DefineDefaultConstants();
      }
    }

    /** `load` from `checkRequirements` on. */
    method Validate(fs: FileSystem, wpCorePath: string) returns (r: Outcome)
      modifies this`consts
      ensures (r, consts) == Validated(old(consts), env, fs, wpCorePath)
    {
      var missing := CheckRequirements();
      if missing.Some? {
        r := Fail(MissingConstant(missing.value));
      } else {
        assert REQUIRED_CONSTANTS[3] == "WP_HOME" && REQUIRED_CONSTANTS[5] == "CONTENT_DIR";
        r := DefineDerivedConstants(fs, wpCorePath);
      }
    }

    /** `load` from `defineConstants` on: the cascade, then validation and
      the rest. */
    method LoadConstants(fs: FileSystem, appEnv: string, wpCorePath: string) returns (r: Outcome)
      modifies this`consts
      ensures (r, Process(consts, env)) == LoadConstantsSpec(old(consts), env, appEnv, dotenv, fs, wpCorePath)
    {
      r := DefineConstants(fs, appEnv);
      if r.Done? {
        r := Validate(fs, wpCorePath);
      }
    }

    /** `load`: resolves the two roots into `$_ENV`, loads `.env`, then
      defines the constants; a throw ends the call with the state as it is
      at that point. */
    method Load(fs: FileSystem, server: Server, wpCorePath: string := "/wp",
                projectRootPath: Option<string> := None, publicDirPath: Option<string> := None)
      returns (r: Outcome)
      modifies this`consts, this`env
      ensures (r, Process(consts, env))
        == LoadSpec(Process(old(consts), old(env)), dotenv, fs, server, wpCorePath, projectRootPath, publicDirPath)
    {
      AddEnv("PROJECT_ROOT", RootValue(projectRootPath, env, "PROJECT_ROOT", server.documentRootParent));
      AddEnv("WEB_ROOT", RootValue(publicDirPath, env, "WEB_ROOT", server.documentRoot));
      match dotenv.loadEnv(EnvString(env, "PROJECT_ROOT") + "/.env") {
        case EnvUnreadable(message) =>
          r := Fail(PathError(message));
        case EnvMalformed(message) =>
          r := Fail(ParseError(message));
        case EnvLoaded(appEnv) =>
          env := env["APP_ENV" := Str(appEnv)];
          r := LoadConstants(fs, appEnv, wpCorePath);
      }
    }

    /** `debugSettings`: derives the log directory and log file constants and
      creates the directory when nothing exists at its path. Returns the
      filesystem afterwards. */
    method DebugSettings(fs: FileSystem, logPath: string := "/var/log") returns (r: Result<FileSystem>)
      modifies this`consts
      ensures (r, consts) == DebugSpec(old(consts), env, fs, logPath)
    {
      DefineConstant("WP_DEBUG_DIR", Str(EnvString(env, "PROJECT_ROOT") + logPath));
      DefineConstant("WP_DEBUG_LOG", Str(ToStr(consts["WP_DEBUG_DIR"]) + "/" + EnvString(env, "APP_ENV") + ".log"));
      match consts["WP_DEBUG_DIR"] {
        case Bool(_) =>
          r := Err(TypeError("file_exists"));
        case Str(dir) =>
          if !FileExists(fs, dir) {
            r := Ok(fs.(dirs := fs.dirs + {dir}));
          } else {
            r := Ok(fs);
          }
      }
    }
  }
}
