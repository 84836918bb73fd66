/** What `Loader::load` and `Loader::debugSettings` promise, stated over the
    specification functions that the methods of `Loader` are proved against. */
module LoaderProperties {
  import opened Values
  import opened Cascade
  import opened Constants
  import opened WordpressLoader

  /** `checkRequirements` inside `load`: when a required name is undefined
      while every earlier one is defined, `load` throws
      MissingConstantException naming it and defines nothing more. */
  lemma ValidatedReportsFirstMissing(c: Table, env: Table, fs: FileSystem, wpCorePath: string, i: nat)
    requires i < |REQUIRED_CONSTANTS| && REQUIRED_CONSTANTS[i] !in c
    requires forall j :: 0 <= j < i ==> REQUIRED_CONSTANTS[j] in c
    ensures Validated(c, env, fs, wpCorePath) == (Fail(MissingConstant(REQUIRED_CONSTANTS[i])), c)
  {
  }

  /** Whatever the outcome of validation and what follows it, the constants
      defined before keep their values. */
  lemma ValidatedKeepsEarlier(c: Table, env: Table, fs: FileSystem, wpCorePath: string)
    ensures var q := Validated(c, env, fs, wpCorePath).1;
      forall k :: k in c ==> k in q && q[k] == c[k]
  {
  }

  /** A failed `load` after the cascade applied no defaults: a missing name
      leaves the table as it was, a failed directory check adds only the
      three derived constants. */
  lemma ValidatedFailureAppliesNoDefaults(c: Table, env: Table, fs: FileSystem, wpCorePath: string)
    requires Validated(c, env, fs, wpCorePath).0.Fail?
    ensures var (o, q) := Validated(c, env, fs, wpCorePath);
      && (o.error.MissingConstant? ==> q == c && o.error.name !in c)
      && (!o.error.MissingConstant? ==> q.Keys == c.Keys + DERIVED_CONSTANTS)
  {
  }

  /** The three derived constants, each first-write-wins once validation
      passes: a name not defined before holds the value `load` computes from
      `WEB_ROOT`, `CONTENT_DIR`, `WP_HOME` and the core path. */
  lemma ValidatedDerivedValues(c: Table, env: Table, fs: FileSystem, wpCorePath: string)
    requires forall i :: 0 <= i < |REQUIRED_CONSTANTS| ==> REQUIRED_CONSTANTS[i] in c
    ensures var q := Validated(c, env, fs, wpCorePath).1;
      var webRoot := EnvString(env, "WEB_ROOT");
      && DERIVED_CONSTANTS <= q.Keys && "WP_HOME" in q && "CONTENT_DIR" in q
      && ("WP_CONTENT_DIR" !in c ==> q["WP_CONTENT_DIR"] == Coerce(Str(webRoot + ToStr(q["CONTENT_DIR"]))))
      && ("WP_CONTENT_URL" !in c ==> q["WP_CONTENT_URL"] == Coerce(Str(ToStr(q["WP_HOME"]) + ToStr(q["CONTENT_DIR"]))))
      && ("ABSPATH" !in c ==> q["ABSPATH"] == Coerce(Str(webRoot + wpCorePath + "/")))
  {
    assert REQUIRED_CONSTANTS[3] in c && REQUIRED_CONSTANTS[5] in c;
  }

  /** A successful `load` after the cascade: every required, derived and
      default name is defined, `ABSPATH` names an existing directory, and a
      default name defined by nothing earlier holds its default value. */
  lemma ValidatedSuccess(c: Table, env: Table, fs: FileSystem, wpCorePath: string)
    requires Validated(c, env, fs, wpCorePath).0 == Done
    ensures var q := Validated(c, env, fs, wpCorePath).1;
      && q.Keys == c.Keys + DERIVED_CONSTANTS + DEFAULT_CONSTANTS.Keys
      && (forall i :: 0 <= i < |REQUIRED_CONSTANTS| ==> REQUIRED_CONSTANTS[i] in q)
      && q["ABSPATH"].Str? && IsDir(fs, q["ABSPATH"].s)
      && (forall k :: k in DEFAULT_CONSTANTS && k !in c && k !in DERIVED_CONSTANTS
            ==> q[k] == Coerce(DEFAULT_CONSTANTS[k]))
  {
  }

  /** The `is_dir(ABSPATH)` gate: once validation passes, an `ABSPATH` that
      is a string naming no directory makes `load` throw the PathException
      naming that path. That is the value defined before, when there is one
      (first-write-wins), and otherwise the one `load` derives; in that case
      only the three derived names have been added, so no default is
      applied. */
  lemma ValidatedMissingCoreDir(c: Table, env: Table, fs: FileSystem, wpCorePath: string)
    requires forall i :: 0 <= i < |REQUIRED_CONSTANTS| ==> REQUIRED_CONSTANTS[i] in c
    ensures var a := if "ABSPATH" in c then c["ABSPATH"]
                     else Str(EnvString(env, "WEB_ROOT") + wpCorePath + "/");
      && (a.Str? && !IsDir(fs, a.s) ==>
            Validated(c, env, fs, wpCorePath).0
              == Fail(PathError("Unable to find wordpress core directory \"" + a.s + "\".")))
      && ("ABSPATH" !in c && a.Str? && !IsDir(fs, a.s) ==>
            Validated(c, env, fs, wpCorePath).1.Keys == c.Keys + DERIVED_CONSTANTS)
  {
    var path := EnvString(env, "WEB_ROOT") + wpCorePath + "/";
    assert path[|path| - 1] == '/';
    assert Coerce(Str(path)) == Str(path);
    assert REQUIRED_CONSTANTS[3] in c && REQUIRED_CONSTANTS[5] in c;
    if "ABSPATH" !in c {
      assert DeriveCore(c, env, wpCorePath)["ABSPATH"] == Str(path);
    }
  }

  /** The cascade reaches the constant table: when the four files parse, a
      name not defined before `load` holds the coerced value from the last
      file that sets it, whatever the outcome of the later steps. */
  lemma LoadConstantsFromLastFile(c: Table, env: Table, appEnv: string, dotenv: Dotenv, fs: FileSystem,
                                  wpCorePath: string, key: string, j: nat)
    requires var paths := CascadePaths(EnvString(env, "PROJECT_ROOT"), appEnv);
      && (forall i :: 0 <= i < 4 ==> Layer(dotenv.parse, fs, paths[i]).Vars?)
      && j < 4 && SetsKey(dotenv.parse, fs, paths[j], key)
      && (forall i :: j < i < 4 ==> !SetsKey(dotenv.parse, fs, paths[i], key))
    requires key !in c
    ensures var q := LoadConstantsSpec(c, env, appEnv, dotenv, fs, wpCorePath).1.consts;
      var paths := CascadePaths(EnvString(env, "PROJECT_ROOT"), appEnv);
      key in q && q[key] == Coerce(Str(Layer(dotenv.parse, fs, paths[j]).vars[key]))
  {
    var paths := CascadePaths(EnvString(env, "PROJECT_ROOT"), appEnv);
    MergeCascadeLastWins(dotenv.parse, fs, paths, map[]);
    var merged := MergeCascade(dotenv.parse, fs, paths, map[]).value;
    ValidatedKeepsEarlier(DefineAll(c, AsValues(merged)), env, fs, wpCorePath);
  }

  /** A format error in one of the four files, the earlier ones parsing, ends
      `load` with that ParseException and defines no constant. */
  lemma LoadConstantsFailsAtFirstMalformed(c: Table, env: Table, appEnv: string, dotenv: Dotenv,
                                           fs: FileSystem, wpCorePath: string, i: nat)
    requires var paths := CascadePaths(EnvString(env, "PROJECT_ROOT"), appEnv);
      && i < 4 && Layer(dotenv.parse, fs, paths[i]).Malformed?
      && (forall j :: 0 <= j < i ==> Layer(dotenv.parse, fs, paths[j]).Vars?)
    ensures var paths := CascadePaths(EnvString(env, "PROJECT_ROOT"), appEnv);
      LoadConstantsSpec(c, env, appEnv, dotenv, fs, wpCorePath)
        == (Fail(ParseError(Layer(dotenv.parse, fs, paths[i]).message)), Process(c, env))
  {
    var paths := CascadePaths(EnvString(env, "PROJECT_ROOT"), appEnv);
    MergeCascadeFailsAtFirstMalformed(dotenv.parse, fs, paths, map[], i);
  }

  /** `PROJECT_ROOT` and `WEB_ROOT` in `$_ENV` after `load`, whatever its
      outcome: the explicit argument, else the value `$_ENV` held, else the
      one derived from `$_SERVER`, coerced; no other variable changes except
      `APP_ENV`. */
  lemma LoadResolvesRoots(p: Process, dotenv: Dotenv, fs: FileSystem, server: Server, wpCorePath: string,
                          projectRootPath: Option<string>, publicDirPath: Option<string>)
    ensures var e := LoadSpec(p, dotenv, fs, server, wpCorePath, projectRootPath, publicDirPath).1.env;
      && "PROJECT_ROOT" in e && "WEB_ROOT" in e
      && e["PROJECT_ROOT"] == Coerce(
           if projectRootPath.Some? then Str(projectRootPath.value)
           else if "PROJECT_ROOT" in p.env then p.env["PROJECT_ROOT"]
           else Str(server.documentRootParent))
      && e["WEB_ROOT"] == Coerce(
           if publicDirPath.Some? then Str(publicDirPath.value)
           else if "WEB_ROOT" in p.env then p.env["WEB_ROOT"]
           else Str(server.documentRoot))
      && (forall k :: k in p.env && k !in {"PROJECT_ROOT", "WEB_ROOT", "APP_ENV"} ==> k in e && e[k] == p.env[k])
  {
    var env1 := ResolveRoots(p.env, server, projectRootPath, publicDirPath);
    match dotenv.loadEnv(EnvString(env1, "PROJECT_ROOT") + "/.env")
    case EnvUnreadable(_) =>
    case EnvMalformed(_) =>
    case EnvLoaded(appEnv) =>
      assert |"APP_ENV"| != |"PROJECT_ROOT"| && |"APP_ENV"| != |"WEB_ROOT"|;
      LoadConstantsKeepsEnv(p.consts, env1["APP_ENV" := Str(appEnv)], appEnv, dotenv, fs, wpCorePath);
  }

  /** From `defineConstants` on, `load` writes no variable of `$_ENV`. */
  lemma LoadConstantsKeepsEnv(c: Table, env: Table, appEnv: string, dotenv: Dotenv, fs: FileSystem,
                              wpCorePath: string)
    ensures LoadConstantsSpec(c, env, appEnv, dotenv, fs, wpCorePath).1.env == env
  {
  }

  /** `load` never changes a constant defined before it runs, whatever its
      outcome: `define` is first-write-wins all the way through. */
  lemma LoadKeepsDefinedConstants(p: Process, dotenv: Dotenv, fs: FileSystem, server: Server, wpCorePath: string,
                                  projectRootPath: Option<string>, publicDirPath: Option<string>)
    ensures var q := LoadSpec(p, dotenv, fs, server, wpCorePath, projectRootPath, publicDirPath).1.consts;
      forall k :: k in p.consts ==> k in q && q[k] == p.consts[k]
  {
    var env1 := ResolveRoots(p.env, server, projectRootPath, publicDirPath);
    match dotenv.loadEnv(EnvString(env1, "PROJECT_ROOT") + "/.env")
    case EnvUnreadable(_) =>
    case EnvMalformed(_) =>
    case EnvLoaded(appEnv) =>
      var env2 := env1["APP_ENV" := Str(appEnv)];
      var merged := MergeCascade(dotenv.parse, fs, CascadePaths(EnvString(env2, "PROJECT_ROOT"), appEnv), map[]);
      if merged.Ok? {
        ValidatedKeepsEarlier(DefineAll(p.consts, AsValues(merged.value)), env2, fs, wpCorePath);
      }
  }

  /** A successful `load`: `.env` gave `APP_ENV`, all six required names and
      every derived and default name are defined, and `ABSPATH` names an
      existing directory. */
  lemma LoadSucceeded(p: Process, dotenv: Dotenv, fs: FileSystem, server: Server, wpCorePath: string,
                      projectRootPath: Option<string>, publicDirPath: Option<string>)
    requires LoadSpec(p, dotenv, fs, server, wpCorePath, projectRootPath, publicDirPath).0 == Done
    ensures var q := LoadSpec(p, dotenv, fs, server, wpCorePath, projectRootPath, publicDirPath).1;
      && "APP_ENV" in q.env
      && (forall i :: 0 <= i < |REQUIRED_CONSTANTS| ==> REQUIRED_CONSTANTS[i] in q.consts)
      && DERIVED_CONSTANTS + DEFAULT_CONSTANTS.Keys <= q.consts.Keys
      && q.consts["ABSPATH"].Str? && IsDir(fs, q.consts["ABSPATH"].s)
  {
    var env1 := ResolveRoots(p.env, server, projectRootPath, publicDirPath);
    match dotenv.loadEnv(EnvString(env1, "PROJECT_ROOT") + "/.env")
    case EnvUnreadable(_) =>
    case EnvMalformed(_) =>
    case EnvLoaded(appEnv) =>
      var env2 := env1["APP_ENV" := Str(appEnv)];
      var merged := MergeCascade(dotenv.parse, fs, CascadePaths(EnvString(env2, "PROJECT_ROOT"), appEnv), map[]);
      ValidatedSuccess(DefineAll(p.consts, AsValues(merged.value)), env2, fs, wpCorePath);
  }

  /** `debugSettings`: `WP_DEBUG_DIR` is the project root followed by the log
      path and `WP_DEBUG_LOG` is that directory followed by `/<APP_ENV>.log`,
      each unless defined before; nothing else is defined or changed; after
      a normal return the directory exists, and only a boolean
      `WP_DEBUG_DIR` makes the call throw. */
  lemma DebugSettingsValues(c: Table, env: Table, fs: FileSystem, logPath: string)
    ensures var (r, q) := DebugSpec(c, env, fs, logPath);
      && q.Keys == c.Keys + {"WP_DEBUG_DIR", "WP_DEBUG_LOG"}
      && (forall k :: k in c ==> q[k] == c[k])
      && ("WP_DEBUG_DIR" !in c ==> q["WP_DEBUG_DIR"] == Coerce(Str(EnvString(env, "PROJECT_ROOT") + logPath)))
      && ("WP_DEBUG_LOG" !in c
          ==> q["WP_DEBUG_LOG"] == Coerce(Str(ToStr(q["WP_DEBUG_DIR"]) + "/" + EnvString(env, "APP_ENV") + ".log")))
      && (r.Ok? <==> q["WP_DEBUG_DIR"].Str?)
      && (r.Ok? ==> FileExists(r.value, q["WP_DEBUG_DIR"].s) && r.value.files == fs.files
                    && fs.dirs <= r.value.dirs)
  {
  }

  /** Calling `debugSettings` again after a normal return changes nothing: the
      constants are already defined and the directory already exists. */
  lemma DebugSettingsTwice(c: Table, env: Table, fs: FileSystem, logPath: string, logPath': string)
    requires DebugSpec(c, env, fs, logPath).0.Ok?
    ensures var (r, q) := DebugSpec(c, env, fs, logPath);
      DebugSpec(q, env, r.value, logPath') == (Ok(r.value), q)
  {
  }
}
