# wordpress-loader: a Dafny model of `Loader`

`Loader` (src/Loader.php) bootstraps a WordPress installation's
configuration. `load` goes through these steps in order:

1. It resolves the project root and the web root into `$_ENV`.
2. It has the dotenv library load the project's `.env` file, which makes
   `APP_ENV` known.
3. It merges the `.const` cascade: `.const`, `.const.local`,
   `.const.<APP_ENV>` and `.const.<APP_ENV>.local`. A later file wins for
   a key they share.
4. It defines every merged variable as a PHP constant. `define` is
   first-write-wins, and the strings `"true"` and `"false"` become
   booleans.
5. It checks the six required names.
6. It derives `WP_CONTENT_DIR`, `WP_CONTENT_URL` and `ABSPATH`.
7. It requires `ABSPATH` to be a directory.
8. It fills in the default constants.

`debugSettings` defines `WP_DEBUG_DIR` and `WP_DEBUG_LOG` and creates the
log directory when nothing exists at its path.

The files and modules:

- `values.dfy` (`Values`): PHP values (strings and booleans), the loose
  comparison behind `stringToBoolean`, string conversion, and the errors.
- `cascade.dfy` (`Cascade`): the filesystem as seen by the loader,
  `getFileContent`, `parseEnvFile` (`array_merge`), and the four-file
  cascade.
- `constants.dfy` (`Constants`): the write-once constant table, the
  required and default tables, and `checkRequirements` as a function.
- `loader.dfy` (`WordpressLoader`): the class `Loader`. Its fields are the
  constant table and `$_ENV`, which its methods change in place. Every
  method is proved against a specification function (`LoadSpec`,
  `DebugSpec`, and so on).
- `loader_properties.dfy` (`LoaderProperties`): what `load` and
  `debugSettings` promise, proved about those specification functions.

The inputs:

- The dotenv library is a pair of functions held by the loader:
  - `parse` gives variables, or a format error with its message.
  - `loadEnv` gives `APP_ENV`, an unreadable-file error or a format error.
- The filesystem is a value: files with their contents, and directories.
  `mkdir` returns the filesystem with the directory added.
- `$_SERVER['DOCUMENT_ROOT']` and its `dirname` are inputs.

Under `declare(strict_types=1)`, `is_dir(ABSPATH)` and
`file_exists(WP_DEBUG_DIR)` raise a `TypeError` when coercion turned that
constant into a boolean; the model returns that `TypeError` too. The other
strict-types failures of the source are listed under "## Left out".

`load` and `debugSettings` take the source's default arguments: the core
path `/wp`, no explicit project or public root, and the log path
`/var/log`.

Consequences of how `load` is written:

- The cascade's variables are defined as constants before the required
  names are checked. A `MissingConstantException` therefore leaves the
  merged variables defined.
- A `.const` format error carries only the parser's message. It does not
  name the file, because `parse` is given the text and not the path.
- When `APP_ENV` is empty, the tier files are not skipped. The paths
  `/.const.` and `/.const..local` are read like any other.
- The content directory in the derived paths is the `CONTENT_DIR`
  constant from the cascade, not an argument of `load`.

`Loader.LoadConstants`, `Loader.Validate` and `Loader.DefineDerivedConstants`
are consecutive tails of `load` (src/Loader.php lines 91-102, 92-102 and
94-102), written as methods of their own. `Load` and `LoadConstants` call
them in the order `load` runs the statements.

## Model

| member | source | states |
|---|---|---|
| Values.Coerce | src/Loader.php:203-213 | `"true"` becomes `true` and `"false"` becomes `false`; every other value, booleans included, is returned unchanged |
| Values.CoerceIdempotent | src/Loader.php:203-213 | coercing twice is coercing once; the result is a boolean exactly when the input is a boolean or the string `"true"` or `"false"` |
| Constants.Define | src/Loader.php:232-238 | first-write-wins: the keys become the old keys plus the name; existing entries are unchanged; an undefined name holds the coerced value |
| Constants.DefineTwiceKeepsFirst | src/Loader.php:232-238 | defining a name twice leaves the first value, or the value it already had |
| Constants.DefineAll | src/Loader.php:154-156 | offering a map of entries to `defineConstant`: the keys are the union; earlier definitions win; new names hold their coerced entries |
| Constants.DefineAllAgainChangesNothing | src/Loader.php:154-156 | offering the same entries a second time changes nothing |
| Constants.DefineAllStep | src/Loader.php:154-156 | offering one more entry extends the offered part by one `define`, so a loop over the keys in any order reaches `DefineAll` |
| Constants.FirstMissing | src/Loader.php:135-142 | the result is None exactly when every listed name is defined; otherwise it is an undefined listed name, and every name listed before it is defined |
| Constants.FirstMissingIsFirst | src/Loader.php:135-142 | an undefined name preceded only by defined names is the one reported |
| Cascade.GetFileContent | src/Loader.php:187-194 | a path where nothing exists reads as the empty string; an existing file reads as its contents |
| Cascade.ParseEnvFile | src/Loader.php:169-178 | fails exactly when the parser rejects the file's text, with a ParseError carrying the parser's message; otherwise returns `array_merge` of the older map and the file's variables (`Merge`); what that means for a missing file is in `MissingFileAddsNothing` |
| Cascade.CascadePaths | src/Loader.php:149-152 | four paths in order: `<root>/.const`, then `.const.local`, then `.const.<APP_ENV>`, then `.const.<APP_ENV>.local` |
| Cascade.MergeCascade | src/Loader.php:149-152 | a failure of the cascade is always a ParseError; which file causes it is in `MergeCascadeFailsAtFirstMalformed`, the merged keys and values in `MergeCascadeLastWins` |
| Cascade.Merge | src/Loader.php:177 | `array_merge`: the keys are the union; the newer value wins for a shared key; a key only in the older map keeps its value |
| Cascade.MissingFileAddsNothing | src/Loader.php:187-194 | a path where nothing exists reads as ""; when the parser maps "" to no variables, `parseEnvFile` returns the older map unchanged and no error |
| Cascade.MergeCascadeFailsAtFirstMalformed | src/Loader.php:169-175 | when the earlier files parse, the first file that fails to parse ends the cascade with a ParseError carrying its message, and no merged map |
| Cascade.MergeCascadeKeys | src/Loader.php:147-152 | when every file parses, the cascade succeeds, and a key is merged exactly when the starting map or some file has it |
| Cascade.MergeCascadeKeepsUnset | src/Loader.php:147-152 | when every file parses, a key that no file sets keeps its starting value |
| Cascade.MergeCascadeLastSetter | src/Loader.php:147-152 | when every file parses, a key holds the value from the last file that sets it |
| Cascade.MergeCascadeLastWins | src/Loader.php:147-152 | when every file parses: the merged keys are those of all files; each key holds the value from the last file that sets it |
| Cascade.CascadeOverrideWins | src/Loader.php:149-152 | of the four files, `.const.<env>.local` wins for a key it sets; a key set only in `.const` keeps that file's value |
| WordpressLoader.ResolveRoots | src/Loader.php:80-81 | `$_ENV` gains `PROJECT_ROOT` and `WEB_ROOT`: each holds the explicit argument, else its earlier `$_ENV` value, else the `$_SERVER` value (the document root's parent or the document root), coerced; every other variable is kept |
| WordpressLoader.DeriveCore | src/Loader.php:94-96 | the three derived names are added and every entry defined before is kept |
| WordpressLoader.CoreDirCheck | src/Loader.php:98-100 | passes exactly when `ABSPATH` is a string naming a directory; a boolean `ABSPATH` raises the `TypeError` of `is_dir`; a string naming no directory gives the PathError "Unable to find wordpress core directory \"<path>\"." |
| WordpressLoader.Loader.constructor | src/Loader.php:63-66 | the loader holds the dotenv library object and starts from the process's current constants and `$_ENV` |
| WordpressLoader.Loader.AddEnv | src/Loader.php:221-224 | `$_ENV[key]` becomes the coerced value and nothing else in `$_ENV` changes |
| WordpressLoader.Loader.DefineConstant | src/Loader.php:232-238 | the constant table becomes `Define` of the old one |
| WordpressLoader.Loader.DefineConstants | src/Loader.php:147-157 | a format error in the cascade is returned and defines nothing; otherwise every merged variable is offered to `define` |
| WordpressLoader.Loader.CheckRequirements | src/Loader.php:135-142 | reports the first required name, in list order, that is not defined; None exactly when all six are defined |
| WordpressLoader.Loader.DefineDefaultConstants | src/Loader.php:123-128 | every default is offered to `define`: names defined before keep their values, the others take their defaults |
| WordpressLoader.Loader.DefineDerivedConstants | src/Loader.php:94-102 | the three derived definitions, then `is_dir(ABSPATH)`; the defaults are applied only when that check passes |
| WordpressLoader.Loader.Validate | src/Loader.php:92-102 | a missing required name ends the call with MissingConstant naming it; otherwise the derived step runs |
| WordpressLoader.Loader.LoadConstants | src/Loader.php:91-102 | the cascade, then validation and what follows, ending as the specification `LoadConstantsSpec` says |
| WordpressLoader.Loader.Load | src/Loader.php:78-103 | with the source's default arguments (`/wp`, no explicit roots), the outcome, the constants and `$_ENV` are those that `LoadSpec` gives for the old state |
| WordpressLoader.Loader.DebugSettings | src/Loader.php:110-118 | with the log path defaulting to `/var/log`, the outcome, the filesystem and the constants are those that `DebugSpec` gives for the old state |
| LoaderProperties.ValidatedReportsFirstMissing | src/Loader.php:135-142 | an undefined required name preceded only by defined ones makes `load` fail with MissingConstant naming it, and nothing more is defined |
| LoaderProperties.ValidatedKeepsEarlier | src/Loader.php:92-102 | from the requirements check on, no constant defined before changes, whatever the outcome |
| LoaderProperties.ValidatedFailureAppliesNoDefaults | src/Loader.php:98-102 | a missing name leaves the table as it was, and the reported name is undefined; a failed directory check adds only the three derived names; no default is applied |
| LoaderProperties.ValidatedDerivedValues | src/Loader.php:94-96 | once the required names are defined: `WP_CONTENT_DIR` = `WEB_ROOT` + `CONTENT_DIR`, `WP_CONTENT_URL` = `WP_HOME` + `CONTENT_DIR`, `ABSPATH` = `WEB_ROOT` + core path + "/", each coerced and each only when the name was not defined before |
| LoaderProperties.ValidatedSuccess | src/Loader.php:94-102 | success defines exactly the earlier names plus the derived and default names; all six required names are defined; `ABSPATH` is a string naming an existing directory; a default name defined by nothing earlier holds its default |
| LoaderProperties.ValidatedMissingCoreDir | src/Loader.php:94-100 | once the required names are defined, an `ABSPATH` that is a string naming no directory makes `load` fail with the PathError "Unable to find wordpress core directory \"<path>\".". This holds whether `ABSPATH` was defined before or is derived as `WEB_ROOT` + core path + "/". When it is derived, the table then holds only the earlier names plus the three derived ones, so no default is applied |
| LoaderProperties.LoadConstantsFromLastFile | src/Loader.php:147-157 | when the four files parse, a name not defined before `load` ends up holding the coerced value from the last file that sets it, whatever the outcome |
| LoaderProperties.LoadConstantsFailsAtFirstMalformed | src/Loader.php:147-152 | when the earlier files parse, a format error in one of the four files ends `load` with that ParseError, with the constants and `$_ENV` unchanged by this step |
| LoaderProperties.LoadConstantsKeepsEnv | src/Loader.php:91-102 | from `defineConstants` on, `load` does not write `$_ENV` |
| LoaderProperties.LoadResolvesRoots | src/Loader.php:80-81 | after `load`, `PROJECT_ROOT` and `WEB_ROOT` hold the explicit argument, else the earlier `$_ENV` value, else the `$_SERVER` value, coerced; no other variable except `APP_ENV` changes |
| LoaderProperties.LoadKeepsDefinedConstants | src/Loader.php:78-103 | no constant defined before `load` changes, whatever the outcome |
| LoaderProperties.LoadSucceeded | src/Loader.php:78-103 | after a successful `load`: `APP_ENV` is set; the six required names, the three derived names and all defaults are defined; `ABSPATH` names an existing directory |
| LoaderProperties.DebugSettingsValues | src/Loader.php:112-116 | `WP_DEBUG_DIR` = `PROJECT_ROOT` + log path and `WP_DEBUG_LOG` = `WP_DEBUG_DIR` + "/" + `APP_ENV` + ".log", each unless defined before; nothing else changes; the call returns normally exactly when `WP_DEBUG_DIR` is a string, and then that path exists and no file or directory was removed |
| LoaderProperties.DebugSettingsTwice | src/Loader.php:110-118 | a second `debugSettings` after a normal return, with any log path, changes neither the constants nor the filesystem |

## Left out

- The Symfony dotenv library is not modelled. `parse` and `loadEnv` are
  inputs, and `loadEnv` is a function of the `.env` path only. The other
  variables `loadEnv` puts in `$_ENV` are not modelled, since the loader
  reads only `APP_ENV`.
- `var_dump($value)` in `defineConstant` (src/Loader.php:234) is left out.
  It only prints.
- `mkdir` with `recursive` set also creates missing parent directories, and
  it can fail. The model adds only the directory itself and never fails.
- `file_get_contents` on a directory (`file_exists` is true for one) is
  modelled as reading "", leaving PHP's warning out.
- `getFileContent` on a path that exists but cannot be read is left out.
  There `file_get_contents` returns `false`, and the `: string` return type
  raises a `TypeError` under strict types (src/Loader.php:187-190). The
  model's filesystem has no unreadable files, so it cannot express this
  case.
- The order in which PHP arrays iterate is left out. The keys are distinct
  and `define` acts per key, so the resulting table does not depend on it.
- An unset `$_SERVER['DOCUMENT_ROOT']` is left out. The model takes the
  document root and its `dirname` as given strings. In the source, when
  the fallback on src/Loader.php:80 is reached, `\dirname(null)` raises a
  `TypeError` under strict types. On src/Loader.php:81 the fallback reads
  null with a warning, and `addEnv` stores that null.
- src/Exception/MissingConstantException.php formats the name into a
  message. The model keeps only the name. `MissingEnvException` is never
  thrown by `Loader`.
- Exception codes and the wrapped previous exceptions are left out. Only
  the kind and the message are kept.
