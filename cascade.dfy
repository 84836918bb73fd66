/** The `.const` cascade: reading a file (absent means empty), handing its text
    to the dotenv parser, and merging the parsed variables over what the
    earlier files gave, later files winning. */
module Cascade {
  import opened Values

  /** The part of the filesystem the loader looks at: regular files with their
      contents, and directories. */
  datatype FileSystem = FileSystem(files: map<string, string>, dirs: set<string>)

  /** `file_exists`: true for files and for directories. */
  predicate FileExists(fs: FileSystem, path: string)
  {
    path in fs.files || path in fs.dirs
  }

  /** `is_dir`. */
  predicate IsDir(fs: FileSystem, path: string)
  {
    path in fs.dirs
  }

  /** What the dotenv parser returns for a text: its variables, or the message
      of the format error it raised. */
  datatype ParseOutcome = Vars(vars: map<string, string>) | Malformed(message: string)

  type Parser = string -> ParseOutcome

  /** `Loader::getFileContent`: the file's contents, or "" when nothing exists
      at the path. A directory reads as empty. */
  function GetFileContent(fs: FileSystem, path: string): (r: string)
    ensures !FileExists(fs, path) ==> r == ""
    ensures path in fs.files ==> r == fs.files[path]
  {
    if FileExists(fs, path) then
      if path in fs.files then fs.files[path] else ""
    else ""
  }

  /** `array_merge` of two arrays with string keys: every key of either, the
      value from the newer array where it has one. */
  function Merge(older: map<string, string>, newer: map<string, string>): (r: map<string, string>)
    ensures r.Keys == older.Keys + newer.Keys
    ensures forall k :: k in newer ==> r[k] == newer[k]
    ensures forall k :: k in older && k !in newer ==> r[k] == older[k]
  {
    older + newer
  }

  /** What parsing the file at `path` gives. */
  function Layer(parse: Parser, fs: FileSystem, path: string): (r: ParseOutcome)
  {
    parse(GetFileContent(fs, path))
  }

  /** The file at `path` parses and sets `key`. */
  predicate SetsKey(parse: Parser, fs: FileSystem, path: string, key: string)
  {
    Layer(parse, fs, path).Vars? && key in Layer(parse, fs, path).vars
  }

  /** `Loader::parseEnvFile`: parse the file and merge its variables over
      `older`; a format error becomes a ParseError carrying the parser's
      message. */
  function ParseEnvFile(parse: Parser, fs: FileSystem, path: string, older: map<string, string>)
    : (r: Result<map<string, string>>)
    ensures r.Err? <==> Layer(parse, fs, path).Malformed?
    ensures r.Err? ==> r.error == ParseError(Layer(parse, fs, path).message)
    ensures r.Ok? ==> r.value == Merge(older, Layer(parse, fs, path).vars)
  {
    match Layer(parse, fs, path)
    case Malformed(message) => Err(ParseError(message))
    case Vars(vars) => Ok(Merge(older, vars))
  }

  /** The four files of `Loader::defineConstants`, in the order they are read. */
  function CascadePaths(projectRoot: string, appEnv: string): (paths: seq<string>)
    ensures |paths| == 4
    ensures paths[0] == projectRoot + "/.const"
    ensures paths[1] == paths[0] + ".local" && paths[3] == paths[2] + ".local"
    ensures paths[2] == paths[0] + "." + appEnv
  {
    [ projectRoot + "/.const",
      projectRoot + "/.const.local",
      projectRoot + "/.const." + appEnv,
      projectRoot + "/.const." + appEnv + ".local" ]
  }

  /** The chain of `parseEnvFile` calls: each file merged over the result of
      the ones before it; the first format error ends the chain. */
  function MergeCascade(parse: Parser, fs: FileSystem, paths: seq<string>, acc: map<string, string>)
    : (r: Result<map<string, string>>)
    ensures r.Err? ==> r.error.ParseError?
    decreases |paths|
  {
    if paths == [] then Ok(acc)
    else
      match ParseEnvFile(parse, fs, paths[0], acc)
      case Err(e) => Err(e)
      case Ok(merged) =>
        MergeCascade(parse, fs, paths[1..], merged)
  }

  /** A file that does not exist adds nothing and is not an error, given that
      the parser maps the empty text to no variables. */
  lemma MissingFileAddsNothing(parse: Parser, fs: FileSystem, path: string, older: map<string, string>)
    requires parse("") == Vars(map[])
    requires !FileExists(fs, path)
    ensures ParseEnvFile(parse, fs, path, older) == Ok(older)
  {
    assert Merge(older, map[]) == older;
  }

  /** The first file that fails to parse decides the result: its error, and no
      merged map. */
  lemma {:induction false} MergeCascadeFailsAtFirstMalformed(
    parse: Parser, fs: FileSystem, paths: seq<string>, acc: map<string, string>, i: nat)
    requires i < |paths|
    requires forall j :: 0 <= j < i ==> Layer(parse, fs, paths[j]).Vars?
    requires Layer(parse, fs, paths[i]).Malformed?
    ensures MergeCascade(parse, fs, paths, acc) == Err(ParseError(Layer(parse, fs, paths[i]).message))
    decreases i
  {
    if i > 0 {
      var acc' := Merge(acc, Layer(parse, fs, paths[0]).vars);
      assert Layer(parse, fs, paths[0]).Vars?;
      forall j | 0 <= j < i - 1
        ensures Layer(parse, fs, paths[1..][j]).Vars?
      {
        assert paths[1..][j] == paths[j + 1];
      }
      MergeCascadeFailsAtFirstMalformed(parse, fs, paths[1..], acc', i - 1);
    }
  }

  /** When every file parses, the cascade succeeds, and a key is in the result
      exactly when it is in the starting map or some file sets it. */
  lemma {:induction false} MergeCascadeKeys(
    parse: Parser, fs: FileSystem, paths: seq<string>, acc: map<string, string>)
    requires forall j :: 0 <= j < |paths| ==> Layer(parse, fs, paths[j]).Vars?
    ensures MergeCascade(parse, fs, paths, acc).Ok?
    ensures forall k :: k in MergeCascade(parse, fs, paths, acc).value <==>
      k in acc || exists j :: 0 <= j < |paths| && SetsKey(parse, fs, paths[j], k)
    decreases |paths|
  {
    if paths != [] {
      var first := Layer(parse, fs, paths[0]);
      assert first.Vars?;
      var acc' := Merge(acc, first.vars);
      var rest := paths[1..];
      forall j | 0 <= j < |rest| ensures Layer(parse, fs, rest[j]).Vars? {
        assert rest[j] == paths[j + 1];
      }
      MergeCascadeKeys(parse, fs, rest, acc');
      var m := MergeCascade(parse, fs, paths, acc).value;
      assert m == MergeCascade(parse, fs, rest, acc').value;
      forall k
        ensures k in m <==> k in acc || exists j :: 0 <= j < |paths| && SetsKey(parse, fs, paths[j], k)
      {
        if k in m && k !in acc && !SetsKey(parse, fs, paths[0], k) {
          var j' :| 0 <= j' < |rest| && SetsKey(parse, fs, rest[j'], k);
          assert paths[j' + 1] == rest[j'];
        }
        if exists j :: 0 <= j < |paths| && SetsKey(parse, fs, paths[j], k) {
          var j :| 0 <= j < |paths| && SetsKey(parse, fs, paths[j], k);
          if j > 0 {
            assert rest[j - 1] == paths[j];
          }
        }
      }
    }
  }

  /** When every file parses, a key that no file sets keeps its starting value. */
  lemma {:induction false} MergeCascadeKeepsUnset(
    parse: Parser, fs: FileSystem, paths: seq<string>, acc: map<string, string>, k: string)
    requires forall j :: 0 <= j < |paths| ==> Layer(parse, fs, paths[j]).Vars?
    requires k in acc && forall j :: 0 <= j < |paths| ==> !SetsKey(parse, fs, paths[j], k)
    ensures MergeCascade(parse, fs, paths, acc).Ok?
    ensures k in MergeCascade(parse, fs, paths, acc).value
    ensures MergeCascade(parse, fs, paths, acc).value[k] == acc[k]
    decreases |paths|
  {
    if paths != [] {
      assert !SetsKey(parse, fs, paths[0], k);
      var rest := paths[1..];
      forall j | 0 <= j < |rest|
        ensures Layer(parse, fs, rest[j]).Vars? && !SetsKey(parse, fs, rest[j], k)
      {
        assert rest[j] == paths[j + 1];
      }
      MergeCascadeKeepsUnset(parse, fs, rest, Merge(acc, Layer(parse, fs, paths[0]).vars), k);
    }
  }

  /** When every file parses, a key takes its value from the last file that
      sets it. */
  lemma {:induction false} MergeCascadeLastSetter(
    parse: Parser, fs: FileSystem, paths: seq<string>, acc: map<string, string>, j: nat, k: string)
    requires forall i :: 0 <= i < |paths| ==> Layer(parse, fs, paths[i]).Vars?
    requires j < |paths| && SetsKey(parse, fs, paths[j], k)
    requires forall j' :: j < j' < |paths| ==> !SetsKey(parse, fs, paths[j'], k)
    ensures MergeCascade(parse, fs, paths, acc).Ok?
    ensures k in MergeCascade(parse, fs, paths, acc).value
    ensures MergeCascade(parse, fs, paths, acc).value[k] == Layer(parse, fs, paths[j]).vars[k]
    decreases |paths|
  {
    var acc' := Merge(acc, Layer(parse, fs, paths[0]).vars);
    var rest := paths[1..];
    forall i | 0 <= i < |rest| ensures Layer(parse, fs, rest[i]).Vars? {
      assert rest[i] == paths[i + 1];
    }
    forall j' | j - 1 < j' < |rest| ensures !SetsKey(parse, fs, rest[j'], k) {
      assert rest[j'] == paths[j' + 1];
    }
    if j == 0 {
      MergeCascadeKeepsUnset(parse, fs, rest, acc', k);
    } else {
      assert rest[j - 1] == paths[j];
      MergeCascadeLastSetter(parse, fs, rest, acc', j - 1, k);
    }
  }

  /** When every file parses, the cascade succeeds; its keys are those of the
      starting map and of every file, and each key takes its value from the
      last file that sets it (or keeps its starting value when none does). */
  lemma MergeCascadeLastWins(
    parse: Parser, fs: FileSystem, paths: seq<string>, acc: map<string, string>)
    requires forall j :: 0 <= j < |paths| ==> Layer(parse, fs, paths[j]).Vars?
    ensures MergeCascade(parse, fs, paths, acc).Ok?
    ensures var m := MergeCascade(parse, fs, paths, acc).value;
      && (forall k :: k in m <==> k in acc || exists j :: 0 <= j < |paths| && SetsKey(parse, fs, paths[j], k))
      && (forall j, k :: 0 <= j < |paths| && SetsKey(parse, fs, paths[j], k)
            && (forall j' :: j < j' < |paths| ==> !SetsKey(parse, fs, paths[j'], k))
            ==> m[k] == Layer(parse, fs, paths[j]).vars[k])
      && (forall k :: k in acc && (forall j :: 0 <= j < |paths| ==> !SetsKey(parse, fs, paths[j], k))
            ==> m[k] == acc[k])
  {
    MergeCascadeKeys(parse, fs, paths, acc);
    forall j, k | 0 <= j < |paths| && SetsKey(parse, fs, paths[j], k)
        && (forall j' :: j < j' < |paths| ==> !SetsKey(parse, fs, paths[j'], k))
      ensures MergeCascade(parse, fs, paths, acc).value[k] == Layer(parse, fs, paths[j]).vars[k]
    {
      MergeCascadeLastSetter(parse, fs, paths, acc, j, k);
    }
    forall k | k in acc && (forall j :: 0 <= j < |paths| ==> !SetsKey(parse, fs, paths[j], k))
      ensures MergeCascade(parse, fs, paths, acc).value[k] == acc[k]
    {
      MergeCascadeKeepsUnset(parse, fs, paths, acc, k);
    }
  }

  /** The four-file cascade: a key set in the environment's local file wins
      over every other file; a key set only in the base file keeps the base
      value. */
  lemma CascadeOverrideWins(parse: Parser, fs: FileSystem, projectRoot: string, appEnv: string, key: string)
    requires forall p :: p in CascadePaths(projectRoot, appEnv) ==> Layer(parse, fs, p).Vars?
    ensures MergeCascade(parse, fs, CascadePaths(projectRoot, appEnv), map[]).Ok?
    ensures var paths := CascadePaths(projectRoot, appEnv);
      var m := MergeCascade(parse, fs, paths, map[]).value;
      && (SetsKey(parse, fs, paths[3], key) ==> key in m && m[key] == Layer(parse, fs, paths[3]).vars[key])
      && (SetsKey(parse, fs, paths[0], key) && !SetsKey(parse, fs, paths[1], key)
          && !SetsKey(parse, fs, paths[2], key) && !SetsKey(parse, fs, paths[3], key)
          ==> key in m && m[key] == Layer(parse, fs, paths[0]).vars[key])
  {
    var paths := CascadePaths(projectRoot, appEnv);
    assert forall j :: 0 <= j < |paths| ==> paths[j] in paths;
    MergeCascadeLastWins(parse, fs, paths, map[]);
  }
}
