/** The write-once constant table (PHP's `define`/`defined`), the fixed list of
    required names and the fixed table of defaults. */
module Constants {
  import opened Values

  /** Names bound to values: the process's constants, and `$_ENV`. */
  type Table = map<string, Value>

  /** `Loader::REQUIRED_CONSTANTS`, in the order they are checked. */
  const REQUIRED_CONSTANTS: seq<string> :=
    ["DB_NAME", "DB_USER", "DB_PASSWORD", "WP_HOME", "WP_SITEURL", "CONTENT_DIR"]

  /** `Loader::DEFAULT_CONSTANTS`. */
  const DEFAULT_CONSTANTS: map<string, Value> := map[
    "DB_HOST" := Str("localhost"),
    "DB_CHARSET" := Str("utf8"),
    "DB_COLLATE" := Str(""),
    "AUTH_KEY" := Str("unique phrase"),
    "SECURE_AUTH_KEY" := Str("unique phrase"),
    "LOGGED_IN_KEY" := Str("unique phrase"),
    "NONCE_KEY" := Str("unique phrase"),
    "AUTH_SALT" := Str("unique phrase"),
    "SECURE_AUTH_SALT" := Str("unique phrase"),
    "LOGGED_IN_SALT" := Str("unique phrase"),
    "NONCE_SALT" := Str("unique phrase"),
    "WP_DEBUG" := Bool(true),
    "AUTOMATIC_UPDATER_DISABLED" := Bool(true),
    "DISABLE_WP_CRON" := Bool(false),
    "DISALLOW_FILE_EDIT" := Bool(true),
    "DISALLOW_FILE_MODS" := Bool(true),
    "WP_USE_THEMES" := Bool(true),
    "DB_PREFIX" := Str("wp_")
  ]

  /** The table after `Loader::defineConstant(name, v)`: the first definition
      of a name wins. An undefined name is added holding the coerced value;
      a defined one keeps its value; no other entry changes. */
  function Define(t: Table, name: string, v: Value): (r: Table)
    ensures r.Keys == t.Keys + {name}
    ensures forall k :: k in t ==> r[k] == t[k]
    ensures name !in t ==> r[name] == Coerce(v)
  {
    if name in t then t else t[name := Coerce(v)]
  }

  /** The table after offering every entry of `entries` to `Define`, in any
      order: names already defined keep their values, the others take their
      coerced entry. */
  function DefineAll(t: Table, entries: map<string, Value>): (r: Table)
    ensures r.Keys == t.Keys + entries.Keys
    ensures forall k :: k in t ==> r[k] == t[k]
    ensures forall k :: k in entries && k !in t ==> r[k] == Coerce(entries[k])
  {
    map k | k in t.Keys + entries.Keys :: if k in t then t[k] else Coerce(entries[k])
  }

  /** The entries of `m` whose names are in `names`. */
  function Restrict(m: map<string, Value>, names: set<string>): (r: map<string, Value>)
  {
    map k | k in m && k in names :: m[k]
  }

  /** A parsed file's variables as values: every one is a string. */
  function AsValues(vars: map<string, string>): (r: map<string, Value>)
    ensures r.Keys == vars.Keys
    ensures forall k :: k in vars ==> r[k] == Str(vars[k])
  {
    map k | k in vars :: Str(vars[k])
  }

  /** Defining a name twice keeps the first value. */
  lemma DefineTwiceKeepsFirst(t: Table, name: string, first: Value, second: Value)
    ensures Define(Define(t, name, first), name, second) == Define(t, name, first)
    ensures Define(Define(t, name, first), name, second)[name]
      == if name in t then t[name] else Coerce(first)
  {
  }

  /** Offering the same entries again changes nothing: a second resolution
      pass cannot overwrite what the first one defined. */
  lemma DefineAllAgainChangesNothing(t: Table, entries: map<string, Value>)
    ensures DefineAll(DefineAll(t, entries), entries) == DefineAll(t, entries)
  {
  }

  /** One more entry offered to `Define` extends the part of `entries` that
      has been offered: the step of a loop that defines entries one by one. */
  lemma DefineAllStep(t: Table, entries: map<string, Value>, done: set<string>, k: string)
    requires k in entries && k !in done
    ensures DefineAll(t, Restrict(entries, done + {k}))
      == Define(DefineAll(t, Restrict(entries, done)), k, entries[k])
  {
  }

  /** `Loader::checkRequirements` as a value: the first name of `required`
      that the table does not define, or None when it defines them all. */
  function FirstMissing(required: seq<string>, t: Table): (r: Option<string>)
    ensures r.None? <==> forall i :: 0 <= i < |required| ==> required[i] in t
    ensures r.Some? ==>
      exists i :: 0 <= i < |required| && required[i] == r.value && r.value !in t
        && forall j :: 0 <= j < i ==> required[j] in t
  {
    if required == [] then None
    else if required[0] !in t then Some(required[0])
    else
      var rest := FirstMissing(required[1..], t);
      assert forall i :: 0 < i < |required| ==> required[i] == required[1..][i - 1];
      rest
  }

  /** The name at position `i` of the list, undefined while every name
      before it is defined, is the one `FirstMissing` reports. */
  lemma FirstMissingIsFirst(required: seq<string>, t: Table, i: nat)
    requires i < |required| && required[i] !in t
    requires forall j :: 0 <= j < i ==> required[j] in t
    ensures FirstMissing(required, t) == Some(required[i])
  {
  }
}
