/**
 * `init_config` of the bot launcher (examples/bot/__main__.py): the
 * settings dictionary built from config.json, the command line and an
 * optional coordinates file. Reading files is an input: the parsed
 * config.json (absent when the file does not exist), the options given on
 * the command line, the script's directory, and the parsed content of the
 * coordinates file at a path.
 */
module BotConfig {
  import opened Util

  /** A JSON or command-line value. */
  datatype Value =
    | Null
    | Bool(b: bool)
    | Int(i: int)
    | Real(r: real)
    | Str(s: string)
    | Array(elems: seq<Value>)
    | Object(fields: map<string, Value>)

  type Config = map<string, Value>

  // ---------------------------------------------------------------------
  // The command line
  // ---------------------------------------------------------------------

  /** The option destinations the parser declares, in declaration order, and the `DEBUG` default. */
  const Dests: seq<string> := [
    "auth_service", "username", "password", "location", "key", "coords", "revisit", "minpokemon",
    "speed", "radius", "powerquotient", "debug", "best_balls_first", "nospin", "nocatch", "DEBUG"]

  /** The store-true flags and the `DEBUG` default: False unless given, never None. */
  predicate IsFlag(dest: string) {
    dest == "debug" || dest == "best_balls_first" || dest == "nospin" || dest == "nocatch" || dest == "DEBUG"
  }

  /** Options the parser requires when config.json does not already hold the key. */
  const RequiredUnlessConfigured: seq<string> := [
    "auth_service", "username", "key", "revisit", "minpokemon", "speed", "radius", "powerquotient"]

  /**
   * The options given on the command line are ones the parser declares
   * (`DEBUG` is only a default, no option sets it), carry a value, `coords`
   * is text, and every required option missing from config.json is given.
   * Otherwise the parser exits with an error.
   */
  predicate ArgsAccepted(config: Config, given: map<string, Value>) {
    && (forall k :: k in given ==> k in Dests && k != "DEBUG" && given[k] != Null)
    && ("coords" in given ==> given["coords"].Str?)
    && (forall k :: k in RequiredUnlessConfigured && k !in config ==> k in given)
  }

  /** The parsed value of a destination: what was given, else False for a flag, else None. */
  function ArgValue(given: map<string, Value>, dest: string): Value {
    if dest in given then given[dest] else if IsFlag(dest) then Bool(false) else Null
  }

  /** The parsed namespace over the destinations `dests`, in order. */
  function NamespaceOf(given: map<string, Value>, dests: seq<string>): (ns: seq<(string, Value)>)
    ensures |ns| == |dests|
  {
    seq(|dests|, i requires 0 <= i < |dests| => (dests[i], ArgValue(given, dests[i])))
  }

  // ---------------------------------------------------------------------
  // The coordinates file
  // ---------------------------------------------------------------------

  predicate EndsWith(s: string, suffix: string) {
    |suffix| <= |s| && s[|s| - |suffix|..] == suffix
  }

  /** `os.path.join(dir, tail)` for a relative `tail`. */
  function JoinPath(dir: string, tail: string): (p: string)
    ensures EndsWith(p, tail)
    ensures |dir| <= |p| && p[..|dir|] == dir
  {
    var p := if dir == [] || dir[|dir| - 1] == '/' then dir + tail else dir + "/" + tail;
    assert p[|p| - |tail|..] == tail;
    p
  }

  /**
   * The coordinates file named by `--coords`: a name ending in ".json" is a
   * path used as it is, any other name is the file "coords/<name>.json"
   * beside the script.
   */
  function ResolveCoordsPath(name: string, scriptDir: string): (path: string)
    ensures EndsWith(path, ".json")
    ensures EndsWith(name, ".json") ==> path == name
    ensures !EndsWith(name, ".json") ==>
      EndsWith(path, "coords/" + name + ".json") && |scriptDir| <= |path| && path[..|scriptDir|] == scriptDir
  {
    if EndsWith(name, ".json") then name
    else
      var tail := "coords/" + name + ".json";
      var path := JoinPath(scriptDir, tail);
      assert path[|path| - 5..] == path[|path| - |tail|..][|tail| - 5..];
      path
  }

  /**
   * The settings after the coordinates file: its `bounds` and `location`
   * replace the configured ones, and a key the file lacks is deleted.
   */
  function ApplyCoords(config: Config, coords: Config): (r: Config)
    ensures forall k :: k == "bounds" || k == "location" ==> (k in r <==> k in coords) && (k in coords ==> r[k] == coords[k])
    ensures forall k :: k != "bounds" && k != "location" ==> (k in r <==> k in config) && (k in config ==> r[k] == config[k])
  {
    var noBounds := if "bounds" in coords then config else config - {"bounds"};
    var noLocation := if "location" in coords then noBounds else noBounds - {"location"};
    var clean: Config := if "bounds" in coords then map["bounds" := coords["bounds"]] else map[];
    var clean' := if "location" in coords then clean["location" := coords["location"]] else clean;
    noLocation + clean'
  }

  /** Deleting a key that is absent changes nothing. */
  lemma DeleteAbsent(m: Config, k: string)
    requires k !in m
    ensures m - {k} == m
  {
  }

  // ---------------------------------------------------------------------
  // Arguments win
  // ---------------------------------------------------------------------

  /** Copies every namespace entry that is not None, except `coords`. */
  function MergeArgs(config: Config, ns: seq<(string, Value)>): Config {
    if ns == [] then config
    else
      var m := MergeArgs(config, ns[..|ns| - 1]);
      var (k, v) := ns[|ns| - 1];
      if v != Null && k != "coords" then m[k := v] else m
  }

  /** Whether the argument loop copies destination k. */
  predicate Copied(given: map<string, Value>, k: string) {
    k in Dests && ArgValue(given, k) != Null && k != "coords"
  }

  /**
   * The argument loop over the destinations `dests` sets key k to its
   * parsed value when the loop copies it, and otherwise leaves k as it was.
   */
  lemma {:induction false} MergeNamespaceAt(config: Config, given: map<string, Value>, dests: seq<string>, k: string)
    ensures var m := MergeArgs(config, NamespaceOf(given, dests));
      if k in dests && ArgValue(given, k) != Null && k != "coords" then k in m && m[k] == ArgValue(given, k)
      else (k in m <==> k in config) && (k in config ==> m[k] == config[k])
  {
    if dests != [] {
      var front := dests[..|dests| - 1];
      MergeNamespaceAt(config, given, front, k);
      var ns := NamespaceOf(given, dests);
      assert ns[..|ns| - 1] == NamespaceOf(given, front);
      assert k in dests <==> k in front || k == dests[|dests| - 1];
    }
  }

  /** The settings `init_config` builds, before validation. */
  function Merged(fileConfig: Option<Config>, given: map<string, Value>, coords: Option<Config>): Config {
    var base := if fileConfig.Some? then fileConfig.value else map[];
    var withCoords := if coords.Some? then ApplyCoords(base, coords.value) else base;
    MergeArgs(withCoords, NamespaceOf(given, Dests))
  }

  /** Every declared option other than `coords` whose value is not None overwrites the setting. */
  lemma ArgumentsWin(fileConfig: Option<Config>, given: map<string, Value>, coords: Option<Config>, k: string)
    requires Copied(given, k)
    ensures k in Merged(fileConfig, given, coords) && Merged(fileConfig, given, coords)[k] == ArgValue(given, k)
  {
    var base := if fileConfig.Some? then fileConfig.value else map[];
    var withCoords := if coords.Some? then ApplyCoords(base, coords.value) else base;
    MergeNamespaceAt(withCoords, given, Dests, k);
  }

  /**
   * The store-true flags always overwrite config.json: they end up True
   * when given and False otherwise, whatever the file said.
   */
  lemma FlagsAlwaysOverwrite(fileConfig: Option<Config>, given: map<string, Value>, coords: Option<Config>, flag: string)
    requires ArgsAccepted(if fileConfig.Some? then fileConfig.value else map[], given)
    requires IsFlag(flag)
    ensures flag in Merged(fileConfig, given, coords)
    ensures Merged(fileConfig, given, coords)[flag] == if flag in given then given[flag] else Bool(false)
  {
    assert flag in Dests;
    ArgumentsWin(fileConfig, given, coords, flag);
  }

  /**
   * `coords` is never copied from the command line: the setting keeps
   * whatever config.json held under that key. Keys the parser does not
   * declare, other than `bounds` and `location`, come from config.json
   * unchanged.
   */
  lemma UntouchedKeys(fileConfig: Option<Config>, given: map<string, Value>, coords: Option<Config>, k: string)
    requires k == "coords" || (k !in Dests && k != "bounds" && k != "location")
    ensures var base := if fileConfig.Some? then fileConfig.value else map[];
      var m := Merged(fileConfig, given, coords);
      (k in m <==> k in base) && (k in base ==> m[k] == base[k])
  {
    var base := if fileConfig.Some? then fileConfig.value else map[];
    var withCoords := if coords.Some? then ApplyCoords(base, coords.value) else base;
    MergeNamespaceAt(withCoords, given, Dests, k);
  }

  /**
   * With a coordinates file, its `bounds` and `location` replace the
   * configured ones and a key it lacks is deleted, unless the command line
   * gives that key (only `location` can be given).
   */
  lemma CoordsReplaceOrDelete(fileConfig: Option<Config>, given: map<string, Value>, coordsFile: Config, k: string)
    requires k == "bounds" || k == "location"
    requires !Copied(given, k)
    ensures var m := Merged(fileConfig, given, Some(coordsFile));
      (k in m <==> k in coordsFile) && (k in coordsFile ==> m[k] == coordsFile[k])
  {
    var base := if fileConfig.Some? then fileConfig.value else map[];
    MergeNamespaceAt(ApplyCoords(base, coordsFile), given, Dests, k);
  }

  /** Once the parser accepted the command line, `auth_service` is always set. */
  lemma AuthServiceAlwaysSet(fileConfig: Option<Config>, given: map<string, Value>, coords: Option<Config>)
    requires ArgsAccepted(if fileConfig.Some? then fileConfig.value else map[], given)
    ensures "auth_service" in Merged(fileConfig, given, coords)
  {
    var base := if fileConfig.Some? then fileConfig.value else map[];
    var withCoords := if coords.Some? then ApplyCoords(base, coords.value) else base;
    assert "auth_service" in Dests && "auth_service" in RequiredUnlessConfigured;
    MergeNamespaceAt(withCoords, given, Dests, "auth_service");
  }

  // ---------------------------------------------------------------------
  // init_config
  // ---------------------------------------------------------------------

  /** The content of the coordinates file read, if one was read. */
  function CoordsRead(path: Option<string>, readCoords: string -> Config): Option<Config> {
    if path.Some? then Some(readCoords(path.value)) else None
  }

  /** The settings name an accepted authentication service. */
  predicate ValidAuth(m: Config) {
    "auth_service" in m && (m["auth_service"] == Str("ptc") || m["auth_service"] == Str("google"))
  }

  /**
   * The coordinates file's step: collects its `bounds` and `location`,
   * deletes from the settings each of the two it lacks, then adds the ones
   * it has.
   */
  method CleanCoords(config0: Config, coords: Config) returns (config: Config)
    ensures config == ApplyCoords(config0, coords)
  {
    config := config0;
    var clean: Config := map[];
    if "bounds" in coords {
      clean := clean["bounds" := coords["bounds"]];
    } else if "bounds" in config {
      config := config - {"bounds"};
    } else {
      DeleteAbsent(config, "bounds");
    }
    if "location" in coords {
      clean := clean["location" := coords["location"]];
    } else if "location" in config {
      config := config - {"location"};
    } else {
      DeleteAbsent(config, "location");
    }
    config := config + clean;
  }

  /** The argument loop: copies every entry that is not None, except `coords`. */
  method CopyArguments(config0: Config, args: seq<(string, Value)>) returns (config: Config)
    ensures config == MergeArgs(config0, args)
  {
    config := config0;
    var i := 0;
    while i < |args|
      invariant 0 <= i <= |args|
      invariant config == MergeArgs(config0, args[..i])
    {
      var (key, value) := args[i];
      assert args[..i + 1][..i] == args[..i];
      if value != Null && key != "coords" {
        config := config[key := value];
      }
      i := i + 1;
    }
    assert args[..i] == args;
  }

  /**
   * Builds the settings. `fileConfig` is config.json (None when there is
   * none), `given` the options on the command line, `readCoords(path)` the
   * content of the coordinates file at `path`. Returns None when the parser
   * rejects the command line, when no location is set, or when the
   * authentication service is neither "ptc" nor "google"; `coordsPath` is
   * the coordinates file read, if any.
   */
  method InitConfig(fileConfig: Option<Config>, given: map<string, Value>, scriptDir: string,
                    readCoords: string -> Config)
    returns (result: Option<Config>, coordsPath: Option<string>)
    ensures var base := if fileConfig.Some? then fileConfig.value else map[];
      coordsPath == if ArgsAccepted(base, given) && "coords" in given
                    then Some(ResolveCoordsPath(given["coords"].s, scriptDir)) else None
    ensures var base := if fileConfig.Some? then fileConfig.value else map[];
      var m := Merged(fileConfig, given, CoordsRead(coordsPath, readCoords));
      result.Some? <==> ArgsAccepted(base, given) && "location" in m && ValidAuth(m)
    ensures result.Some? ==> result.value == Merged(fileConfig, given, CoordsRead(coordsPath, readCoords))
  {
    var config: Config := map[];
    if fileConfig.Some? {
      config := config + fileConfig.value;
      assert config == fileConfig.value;
    }
    coordsPath := None;
    if !ArgsAccepted(config, given) {
      return None, None;     // the parser prints its usage and exits
    }
    var args := NamespaceOf(given, Dests);
    AuthServiceAlwaysSet(fileConfig, given, None);
    var coordsArg := ArgValue(given, "coords");
    ghost var coordsFile: Option<Config> := None;
    if coordsArg != Null {
      var f: string;
      if EndsWith(coordsArg.s, ".json") {
        f := coordsArg.s;
      } else {
        f := JoinPath(scriptDir, "coords/" + coordsArg.s + ".json");
      }
      coordsPath := Some(f);
      var coords := readCoords(f);
      coordsFile := Some(coords);
      config := CleanCoords(config, coords);
      AuthServiceAlwaysSet(fileConfig, given, coordsFile);
    }
    ghost var base := if fileConfig.Some? then fileConfig.value else map[];
    ghost var withCoords := if coordsFile.Some? then ApplyCoords(base, coordsFile.value) else base;
    assert config == withCoords;
    config := CopyArguments(config, args);
    assert config == Merged(fileConfig, given, coordsFile);
    if "location" !in config {
      return None, coordsPath;   // "Must provide a location!"
    }
    if config["auth_service"] != Str("ptc") && config["auth_service"] != Str("google") {
      return None, coordsPath;   // "Invalid Auth service specified!"
    }
    return Some(config), coordsPath;
  }
}
