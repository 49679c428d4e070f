/**
 * Configuration of the migration: the settings record, its validation, the mapping of
 * setting keys to flag names, the environment overrides that flags take precedence
 * over, the legacy comma-separated list variables and the post-processing defaults.
 * Reading flags, files and the process environment is left to the caller: flag values
 * and environment variables come in as functions.
 */
module Config {
  import opened Wrappers
  import opened Strings

  /** Config: the settings the migration runs with. */
  datatype Config = Config(
    gitLabToken: string,
    gitLabInstance: string,
    gitLabRegistry: string,
    dockerToken: string,
    oldGroupName: string,
    newGroupName: string,
    parentGroupId: int,
    projectsList: seq<string>,
    tagsList: seq<string>,
    keepParent: bool,
    dryRun: bool,
    verbose: bool)

  const TokenMissing: string := "GitLab token is required"
  const OldGroupMissing: string := "old group name is required"
  const NewGroupMissing: string := "new group name is required"

  /**
   * Validate: the first missing mandatory setting, checked in the order token, old
   * group, new group; None when all three are set.
   */
  function Validate(c: Config): (r: Option<string>)
    ensures r == None <==> c.gitLabToken != "" && c.oldGroupName != "" && c.newGroupName != ""
    ensures r == Some(TokenMissing) <==> c.gitLabToken == ""
    ensures r == Some(OldGroupMissing) <==> c.gitLabToken != "" && c.oldGroupName == ""
    ensures r == Some(NewGroupMissing) <==> c.gitLabToken != "" && c.oldGroupName != "" && c.newGroupName == ""
  {
    if c.gitLabToken == "" then Some(TokenMissing)
    else if c.oldGroupName == "" then Some(OldGroupMissing)
    else if c.newGroupName == "" then Some(NewGroupMissing)
    else None
  }

  /** The setting keys, which are also the names of the command-line flags. */
  const TokenKey: string := "token"
  const InstanceKey: string := "instance"
  const RegistryKey: string := "registry"
  const DockerPasswordKey: string := "docker-password"
  const OldGroupKey: string := "old-group"
  const NewGroupKey: string := "new-group"
  const ParentGroupIdKey: string := "parent-group-id"
  const ProjectsKey: string := "projects"
  const TagsKey: string := "tags"
  const KeepParentKey: string := "keep-parent"
  const DryRunKey: string := "dry-run"
  const VerboseKey: string := "verbose"

  /**
   * getFlagNameForViperKey: the flag bound to a setting key. Every known key maps to a
   * flag of the same name and an unknown key falls back to itself, so the mapping is
   * the identity.
   */
  function FlagNameForKey(key: string): (flag: string)
    ensures flag == key
  {
    var flags := map[
      "token" := TokenKey, "instance" := InstanceKey, "registry" := RegistryKey,
      "docker-password" := DockerPasswordKey, "old-group" := OldGroupKey,
      "new-group" := NewGroupKey, "parent-group-id" := "parent-group-id",
      "projects" := ProjectsKey, "tags" := TagsKey, "keep-parent" := KeepParentKey,
      "dry-run" := DryRunKey, "verbose" := VerboseKey];
    if key in flags then flags[key] else key
  }

  /** The environment variables that override a setting, without prefix, by setting key. */
  const LegacyEnvTable: map<string, string> := map[
    TokenKey := "GITLAB_TOKEN", InstanceKey := "GITLAB_INSTANCE",
    RegistryKey := "GITLAB_REGISTRY", DockerPasswordKey := "DOCKER_TOKEN",
    OldGroupKey := "OLD_GROUP_NAME", NewGroupKey := "NEW_GROUP_NAME",
    ParentGroupIdKey := "PARENT_GROUP_ID", ProjectsKey := "PROJECTS_LIST",
    TagsKey := "TAGS_LIST", KeepParentKey := "KEEP_PARENT",
    DryRunKey := "DRY_RUN", VerboseKey := "VERBOSE"]

  /** The environment variables that override a setting, with the MIGRAPTOR prefix, by setting key. */
  const PrefixedEnvTable: map<string, string> := map[
    TokenKey := "MIGRAPTOR_TOKEN", InstanceKey := "MIGRAPTOR_INSTANCE",
    RegistryKey := "MIGRAPTOR_REGISTRY", DockerPasswordKey := "MIGRAPTOR_DOCKER_PASSWORD",
    OldGroupKey := "MIGRAPTOR_OLD_GROUP", NewGroupKey := "MIGRAPTOR_NEW_GROUP",
    ParentGroupIdKey := "MIGRAPTOR_PARENT_GROUP_ID", ProjectsKey := "MIGRAPTOR_PROJECTS",
    TagsKey := "MIGRAPTOR_TAGS", KeepParentKey := "MIGRAPTOR_KEEP_PARENT",
    DryRunKey := "MIGRAPTOR_DRY_RUN", VerboseKey := "MIGRAPTOR_VERBOSE"]

  /** A command-line flag as the flag set reports it: its current and its default value, as text. */
  datatype Flag = Flag(value: string, defValue: string)

  /** A flag takes precedence over the environment when it holds a non-empty, non-default value. */
  predicate FlagWins(flag: Option<Flag>) {
    flag.Some? && flag.value.value != "" && flag.value.value != flag.value.defValue
  }

  /** The environment sets `key` from `variable` unless its flag wins or the variable is empty. */
  predicate EnvSets(key: string, variable: string, flags: string -> Option<Flag>, env: string -> string) {
    !FlagWins(flags(FlagNameForKey(key))) && env(variable) != ""
  }

  /** The keys of `table` the environment sets. */
  function SetKeys(table: map<string, string>, flags: string -> Option<Flag>, env: string -> string): set<string> {
    set k | k in table && EnvSets(k, table[k], flags, env)
  }

  /** The settings after one override loop over `table`. */
  function Overridden(
    settings: map<string, string>, table: map<string, string>,
    flags: string -> Option<Flag>, env: string -> string): map<string, string>
  {
    map k | k in settings.Keys + SetKeys(table, flags, env) ::
      if k in table && EnvSets(k, table[k], flags, env) then env(table[k]) else settings[k]
  }

  /** The value of `key` in `m`, None when it has none. */
  function Get(m: map<string, string>, key: string): Option<string> {
    if key in m then Some(m[key]) else None
  }

  /**
   * One override loop sets exactly the keys of the table whose variable is set and whose
   * flag does not win, each to its variable's value, and leaves every other key as it was.
   */
  lemma OverriddenGet(
    settings: map<string, string>, table: map<string, string>,
    flags: string -> Option<Flag>, env: string -> string, key: string)
    ensures Get(Overridden(settings, table, flags, env), key)
      == if key in table && EnvSets(key, table[key], flags, env) then Some(env(table[key])) else Get(settings, key)
  {
    if key in table && EnvSets(key, table[key], flags, env) {
      assert key in SetKeys(table, flags, env);
    }
  }

  /**
   * Precedence of the two override loops: a winning flag keeps the loaded value;
   * otherwise a set MIGRAPTOR variable beats a set legacy variable, which beats the
   * loaded value.
   */
  lemma OverridePrecedence(
    settings: map<string, string>, flags: string -> Option<Flag>, env: string -> string, key: string)
    ensures var final := Overridden(Overridden(settings, LegacyEnvTable, flags, env), PrefixedEnvTable, flags, env);
      Get(final, key) ==
        if FlagWins(flags(key)) then Get(settings, key)
        else if key in PrefixedEnvTable && env(PrefixedEnvTable[key]) != "" then Some(env(PrefixedEnvTable[key]))
        else if key in LegacyEnvTable && env(LegacyEnvTable[key]) != "" then Some(env(LegacyEnvTable[key]))
        else Get(settings, key)
  {
    OverriddenGet(settings, LegacyEnvTable, flags, env, key);
    OverriddenGet(Overridden(settings, LegacyEnvTable, flags, env), PrefixedEnvTable, flags, env, key);
  }

  /** The entries of `table` for the keys in `keys`. */
  function Restrict(table: map<string, string>, keys: set<string>): map<string, string> {
    map k | k in keys && k in table :: table[k]
  }

  lemma RestrictAll(table: map<string, string>)
    ensures Restrict(table, table.Keys) == table
  {
  }

  /** Before any key is handled, nothing is overridden. */
  lemma OverriddenNothing(settings: map<string, string>, table: map<string, string>,
    flags: string -> Option<Flag>, env: string -> string)
    ensures Overridden(settings, Restrict(table, {}), flags, env) == settings
  {
    assert Restrict(table, {}) == map[];
    assert SetKeys(map[], flags, env) == {};
  }

  /** Handling one more key of the table: it is set when the environment sets it. */
  lemma OverriddenStep(
    settings: map<string, string>, table: map<string, string>,
    flags: string -> Option<Flag>, env: string -> string, done: set<string>, key: string)
    requires key in table && key !in done
    ensures var prev := Overridden(settings, Restrict(table, done), flags, env);
      Overridden(settings, Restrict(table, done + {key}), flags, env)
        == if EnvSets(key, table[key], flags, env) then prev[key := env(table[key])] else prev
  {
    var prev := Overridden(settings, Restrict(table, done), flags, env);
    var next := Overridden(settings, Restrict(table, done + {key}), flags, env);
    var expected := if EnvSets(key, table[key], flags, env) then prev[key := env(table[key])] else prev;
    forall k ensures Get(next, k) == Get(expected, k) {
      OverriddenGet(settings, Restrict(table, done + {key}), flags, env, k);
      OverriddenGet(settings, Restrict(table, done), flags, env, k);
    }
    assert next.Keys == expected.Keys by {
      forall k ensures k in next <==> k in expected {
        assert Get(next, k) == Get(expected, k);
      }
    }
    forall k | k in next ensures next[k] == expected[k] {
      assert Get(next, k) == Get(expected, k);
    }
  }

  /** The override loops of LoadConfig, on the settings store they write to. */
  class Settings {
    var values: map<string, string>

    constructor (values: map<string, string>)
      ensures this.values == values
    {
      this.values := values;
    }

    /**
     * One override loop: set each key of `table` from its variable, unless its flag
     * wins. The keys are visited in no particular order, as a map is iterated.
     */
    method ApplyEnvOverrides(table: map<string, string>, flags: string -> Option<Flag>, env: string -> string)
      modifies this`values
      ensures values == Overridden(old(values), table, flags, env)
    {
      var done: set<string> := {};
      OverriddenNothing(values, table, flags, env);
      while done != table.Keys
        invariant done <= table.Keys
        invariant values == Overridden(old(values), Restrict(table, done), flags, env)
        decreases |table.Keys - done|
      {
        var key :| key in table.Keys - done;
        OverriddenStep(old(values), table, flags, env, done, key);
        ApplyEnvOverride(key, table[key], flags, env);
        done := done + {key};
      }
      RestrictAll(table);
    }

    /** The body of the override loop for one key and its variable. */
    method ApplyEnvOverride(key: string, variable: string, flags: string -> Option<Flag>, env: string -> string)
      modifies this`values
      ensures values == if EnvSets(key, variable, flags, env) then old(values)[key := env(variable)] else old(values)
    {
      var flag := flags(FlagNameForKey(key));
      if flag.Some? {
        var flagValue := flag.value.value;
        if flagValue != "" && flagValue != flag.value.defValue {
          return;
        }
      }
      var envValue := env(variable);
      if envValue != "" {
        values := values[key := envValue];
      }
    }
  }

  /** Each piece of a comma-separated list with surrounding white space removed. */
  function TrimAll(pieces: seq<string>): (r: seq<string>)
    ensures |r| == |pieces|
    ensures forall i :: 0 <= i < |pieces| ==> r[i] == TrimSpace(pieces[i])
  {
    if |pieces| == 0 then [] else TrimAll(pieces[..|pieces| - 1]) + [TrimSpace(pieces[|pieces| - 1])]
  }

  /** A trimmed piece of a separator-free piece is separator-free and has no white space at its ends. */
  lemma TrimmedPiece(piece: string, sep: char)
    requires sep !in piece
    ensures var t := TrimSpace(piece);
      sep !in t && (|t| > 0 ==> !IsSpace(t[0]) && !IsSpace(t[|t| - 1]))
  {
    TrimFuncSpec(piece, IsSpace);
    var t := TrimSpace(piece);
    var i: nat :| TrimmedAt(piece, IsSpace, i, t);
    forall k | 0 <= k < |t| ensures t[k] != sep {
      assert t[k] == piece[i + k];
    }
  }

  /**
   * Splitting on "," and trimming gives at least one piece, one per comma plus one,
   * none with a comma in it and none with white space at either end.
   */
  lemma SplitTrimPieces(s: string)
    ensures var r := TrimAll(Split(s, ','));
      && |r| >= 1
      && forall i :: 0 <= i < |r| ==> ',' !in r[i] && (|r[i]| > 0 ==> !IsSpace(r[i][0]) && !IsSpace(r[i][|r[i]| - 1]))
  {
    var parts := Split(s, ',');
    SplitFree(s, ',');
    forall i | 0 <= i < |parts|
      ensures var t := TrimAll(parts)[i]; ',' !in t && (|t| > 0 ==> !IsSpace(t[0]) && !IsSpace(t[|t| - 1]))
    {
      TrimmedPiece(parts[i], ',');
    }
  }

  /** Splitting on "," and trimming each piece in place, as the list settings are read. */
  method SplitAndTrim(s: string) returns (list: seq<string>)
    ensures list == TrimAll(Split(s, ','))
  {
    list := Split(s, ',');
    ghost var pieces := list;
    for i := 0 to |list|
      invariant |list| == |pieces|
      invariant forall k :: 0 <= k < i ==> list[k] == TrimSpace(pieces[k])
      invariant forall k :: i <= k < |list| ==> list[k] == pieces[k]
    {
      list := list[i := TrimSpace(list[i])];
    }
  }

  /**
   * A legacy comma-separated variable fills a list setting only when the variable is
   * set and the list is still empty.
   */
  function LegacyList(current: seq<string>, envValue: string): (r: seq<string>)
    ensures envValue == "" || |current| > 0 ==> r == current
    ensures envValue != "" && |current| == 0 ==>
      && |r| == |Split(envValue, ',')| >= 1
      && forall i :: 0 <= i < |r| ==> r[i] == TrimSpace(Split(envValue, ',')[i])
    ensures envValue != "" && |current| == 0 ==>
      forall i :: 0 <= i < |r| ==> ',' !in r[i] && (|r[i]| > 0 ==> !IsSpace(r[i][0]) && !IsSpace(r[i][|r[i]| - 1]))
  {
    if envValue != "" && |current| == 0 then SplitTrimPieces(envValue); TrimAll(Split(envValue, ',')) else current
  }

  /** The legacy list handling of LoadConfig for one list setting. */
  method ReadLegacyList(current: seq<string>, envValue: string) returns (r: seq<string>)
    ensures r == LegacyList(current, envValue)
  {
    r := current;
    if envValue != "" && |current| == 0 {
      r := SplitAndTrim(envValue);
    }
  }

  /**
   * The post-processing defaults: the registry defaults to "registry." followed by the
   * instance, the Docker password to the GitLab token; nothing else changes.
   */
  function WithDefaults(c: Config): (r: Config)
    ensures r.gitLabRegistry == if c.gitLabRegistry == "" then "registry." + c.gitLabInstance else c.gitLabRegistry
    ensures r.dockerToken == if c.dockerToken == "" then c.gitLabToken else c.dockerToken
    ensures r.(gitLabRegistry := c.gitLabRegistry, dockerToken := c.dockerToken) == c
  {
    var c1 := if c.gitLabRegistry == "" then c.(gitLabRegistry := "registry." + c.gitLabInstance) else c;
    if c1.dockerToken == "" then c1.(dockerToken := c1.gitLabToken) else c1
  }

  /** After the defaults a registry is always named, and applying them again changes nothing. */
  lemma WithDefaultsSettles(c: Config)
    ensures WithDefaults(c).gitLabRegistry != ""
    ensures WithDefaults(c).dockerToken == "" <==> c.dockerToken == "" && c.gitLabToken == ""
    ensures WithDefaults(WithDefaults(c)) == WithDefaults(c)
  {
    var r := WithDefaults(c);
    assert |r.gitLabRegistry| > 0 by {
      if c.gitLabRegistry == "" {
        assert |"registry." + c.gitLabInstance| >= 9;
      }
    }
  }

  /**
   * The end of LoadConfig, once the settings are read into `cfg`: the legacy list
   * variables, then the defaults.
   */
  method FinishLoad(cfg: Config, projectsEnv: string, tagsEnv: string) returns (r: Config)
    ensures r == WithDefaults(cfg.(
      projectsList := LegacyList(cfg.projectsList, projectsEnv),
      tagsList := LegacyList(cfg.tagsList, tagsEnv)))
  {
    var projects := ReadLegacyList(cfg.projectsList, projectsEnv);
    var tags := ReadLegacyList(cfg.tagsList, tagsEnv);
    r := ApplyDefaults(cfg.(projectsList := projects, tagsList := tags));
  }

  /** The post-processing assignments, applied to `c` in turn. */
  method ApplyDefaults(c: Config) returns (r: Config)
    ensures r == WithDefaults(c)
  {
    r := c;
    if r.gitLabRegistry == "" {
      r := r.(gitLabRegistry := "registry." + r.gitLabInstance);
    }
    if r.dockerToken == "" {
      r := r.(dockerToken := r.gitLabToken);
    }
  }
}
