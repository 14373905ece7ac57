/** The value logic of the proxy's per-project configuration: the config type
    enumeration and its names, the nil-safe switches of the misc and OAuth
    configs, the list of live table names, and the typing of decoded values.
    The rows themselves come from the project's database; the queries and the
    JSON decoding are outside this model and enter as parameters. */
module ProjectConfig {
  import opened Wrappers

  newtype int16 = x: int | -0x8000 <= x < 0x8000

  /** ProjectConfigType, an int16 enumeration numbered by iota. */
  type ProjectConfigType = int16

  const ProjectConfigMisc: ProjectConfigType := 0
  const ProjectConfigOAuth: ProjectConfigType := 1
  const ProjectConfigTable: ProjectConfigType := 2
  const ProjectConfigGroup: ProjectConfigType := 3

  /** ProjectConfigType.String: each of the four named values maps to its own
      name, and every other value to "Unknown". */
  function String(c: ProjectConfigType): (s: string)
    ensures s == "Misc" <==> c == ProjectConfigMisc
    ensures s == "OAuth" <==> c == ProjectConfigOAuth
    ensures s == "Table" <==> c == ProjectConfigTable
    ensures s == "Group" <==> c == ProjectConfigGroup
    ensures s == "Unknown" <==> !(ProjectConfigMisc <= c <= ProjectConfigGroup)
  {
    match c
    case 0 => "Misc"
    case 1 => "OAuth"
    case 2 => "Table"
    case 3 => "Group"
    case _ => "Unknown"
  }

  /** The name of a known config type identifies it. */
  lemma StringInjectiveOnKnown(c: ProjectConfigType, d: ProjectConfigType)
    requires String(c) == String(d) && String(c) != "Unknown"
    ensures c == d
  {
  }

  /** ProjectMiscConfig; a `*bool` field is an Option. */
  datatype ProjectMiscConfig = ProjectMiscConfig(
    alias: string,
    enabled: Option<bool>,
    enableSignUp: Option<bool>,
    enableSignUpVerification: Option<bool>,
    sessionAge: int)

  /** ProjectOAuthConfig. */
  datatype ProjectOAuthConfig = ProjectOAuthConfig(clientID: string, clientSecret: string, enabled: Option<bool>)

  /** ProjectTableConfig; `rules` is raw JSON. */
  datatype ProjectTableConfig = ProjectTableConfig(
    columns: seq<string>,
    types: seq<string>,
    keys: map<string, string>,
    rules: seq<byte>,
    primaryKey: string,
    autoIncrement: bool,
    isDeleted: bool)

  /** ProjectGroupConfig. */
  datatype ProjectGroupConfig = ProjectGroupConfig(groups: map<string, seq<int>>)

  /** ProjectMiscConfig.IsEnabled on a possibly nil receiver: false for a nil
      config or an unset flag, otherwise the flag's value. */
  function MiscIsEnabled(c: Option<ProjectMiscConfig>): (on: bool)
    ensures c.None? ==> !on
    ensures c.Some? && c.value.enabled.None? ==> !on
    ensures c.Some? && c.value.enabled.Some? ==> on == c.value.enabled.value
  {
    c.Some? && c.value.enabled.Some? && c.value.enabled.value
  }

  /** ProjectMiscConfig.SupportSignUp: the same rule over EnableSignUp. */
  function SupportSignUp(c: Option<ProjectMiscConfig>): (on: bool)
    ensures c.None? ==> !on
    ensures c.Some? && c.value.enableSignUp.None? ==> !on
    ensures c.Some? && c.value.enableSignUp.Some? ==> on == c.value.enableSignUp.value
  {
    c.Some? && c.value.enableSignUp.Some? && c.value.enableSignUp.value
  }

  /** ProjectMiscConfig.ShouldVerifyAfterSignUp: the same rule over
      EnableSignUpVerification. */
  function ShouldVerifyAfterSignUp(c: Option<ProjectMiscConfig>): (on: bool)
    ensures c.None? ==> !on
    ensures c.Some? && c.value.enableSignUpVerification.None? ==> !on
    ensures c.Some? && c.value.enableSignUpVerification.Some? ==> on == c.value.enableSignUpVerification.value
  {
    c.Some? && c.value.enableSignUpVerification.Some? && c.value.enableSignUpVerification.value
  }

  /** ProjectOAuthConfig.IsEnabled: the same rule over its Enabled. */
  function OAuthIsEnabled(c: Option<ProjectOAuthConfig>): (on: bool)
    ensures c.None? ==> !on
    ensures c.Some? && c.value.enabled.None? ==> !on
    ensures c.Some? && c.value.enabled.Some? ==> on == c.value.enabled.value
  {
    c.Some? && c.value.enabled.Some? && c.value.enabled.value
  }

  /** A row of the table-config query: its Key and the `*ProjectTableConfig`
      its raw value decoded to (None when it decoded to nil). */
  datatype TableRow = TableRow(key: string, decoded: Option<ProjectTableConfig>)

  /** A row names a live table when it decoded to a config not marked deleted. */
  predicate IsLive(r: TableRow)
  {
    r.decoded.Some? && !r.decoded.value.isDeleted
  }

  /** The keys of the live rows, in row order. */
  function LiveTableNames(rows: seq<TableRow>): (names: seq<string>)
    ensures |names| <= |rows|
  {
    if rows == [] then []
    else
      var names := LiveTableNames(rows[..|rows| - 1]);
      if IsLive(rows[|rows| - 1]) then names + [rows[|rows| - 1].key] else names
  }

  /** The positions of the live rows, in increasing order. */
  function LiveRows(rows: seq<TableRow>): seq<nat>
  {
    if rows == [] then []
    else
      var positions := LiveRows(rows[..|rows| - 1]);
      if IsLive(rows[|rows| - 1]) then positions + [|rows| - 1] else positions
  }

  /** The picked positions are row indices, in strictly increasing order. */
  lemma {:induction false} LiveRowsIncrease(rows: seq<TableRow>)
    ensures forall j :: 0 <= j < |LiveRows(rows)| ==> LiveRows(rows)[j] < |rows|
    ensures forall j, k :: 0 <= j < k < |LiveRows(rows)| ==> LiveRows(rows)[j] < LiveRows(rows)[k]
  {
    if rows != [] {
      LiveRowsIncrease(rows[..|rows| - 1]);
    }
  }

  /** Exactly the live rows are picked. */
  lemma {:induction false} LiveRowsExactlyLive(rows: seq<TableRow>)
    ensures forall i :: 0 <= i < |rows| ==> (IsLive(rows[i]) <==> i in LiveRows(rows))
  {
    if rows != [] {
      var init := rows[..|rows| - 1];
      LiveRowsExactlyLive(init);
      LiveRowsIncrease(init);
      assert forall i :: 0 <= i < |init| ==> init[i] == rows[i];
    }
  }

  /** The name list is the subsequence of the row keys picked out by exactly
      the live rows: the j-th name is the key of the j-th picked row, and (by
      the two lemmas above) the picked rows are the live ones, in row order. */
  lemma {:induction false} LiveTableNamesSelectsLiveRows(rows: seq<TableRow>)
    ensures |LiveTableNames(rows)| == |LiveRows(rows)|
    ensures forall j :: 0 <= j < |LiveRows(rows)| ==>
      LiveRows(rows)[j] < |rows| && LiveTableNames(rows)[j] == rows[LiveRows(rows)[j]].key
    ensures forall i :: 0 <= i < |rows| ==> (IsLive(rows[i]) <==> i in LiveRows(rows))
    ensures forall j, k :: 0 <= j < k < |LiveRows(rows)| ==> LiveRows(rows)[j] < LiveRows(rows)[k]
  {
    LiveRowsIncrease(rows);
    LiveRowsExactlyLive(rows);
    if rows != [] {
      var init := rows[..|rows| - 1];
      LiveTableNamesSelectsLiveRows(init);
      LiveRowsIncrease(init);
      assert forall i :: 0 <= i < |init| ==> init[i] == rows[i];
    }
  }

  /** An error wrapped with a message, as errors.Wrapf does. */
  datatype WrappedError = WrappedError(message: string, cause: string)

  /** GetProjectTablesName: a failed query is wrapped and returned; otherwise
      the key of every row that decodes to a config not marked deleted is
      appended, in row order. */
  method GetProjectTablesName(selected: Result<seq<TableRow>, string>) returns (tables: seq<string>, err: Option<WrappedError>)
    ensures selected.Failure? ==>
      tables == [] && err == Some(WrappedError("get project table config failed", selected.error))
    ensures selected.Success? ==> err == None && tables == LiveTableNames(selected.value)
  {
    tables := [];
    if selected.Failure? {
      return [], Some(WrappedError("get project table config failed", selected.error));
    }
    var projects := selected.value;
    var i := 0;
    while i < |projects|
      invariant 0 <= i <= |projects|
      invariant tables == LiveTableNames(projects[..i])
    {
      var p := projects[i];
      if p.decoded.Some? && !p.decoded.value.isDeleted {
        tables := tables + [p.key];
      }
      assert projects[..i + 1][..i] == projects[..i];
      i := i + 1;
    }
    assert projects[..|projects|] == projects;
    err := None;
  }

  /** The dynamic `Value` of a ProjectConfig: nothing yet, one of the four
      typed configs, or whatever JSON decoding made of an untyped value. */
  datatype ConfigValue =
    | NoValue
    | MiscValue(misc: ProjectMiscConfig)
    | OAuthValue(oauth: ProjectOAuthConfig)
    | TableValue(table: ProjectTableConfig)
    | GroupValue(group: ProjectGroupConfig)
    | Untyped(json: seq<byte>)

  /** The value GetAllProjectConfig decodes into: an empty config of the row's
      type, or the value already there when the type is none of the four. */
  function Prototype(t: ProjectConfigType, current: ConfigValue): (v: ConfigValue)
    ensures t == ProjectConfigMisc ==> v == MiscValue(ProjectMiscConfig("", None, None, None, 0))
    ensures t == ProjectConfigOAuth ==> v == OAuthValue(ProjectOAuthConfig("", "", None))
    ensures t == ProjectConfigTable ==> v == TableValue(ProjectTableConfig([], [], map[], [], "", false, false))
    ensures t == ProjectConfigGroup ==> v == GroupValue(ProjectGroupConfig(map[]))
    ensures String(t) == "Unknown" ==> v == current
  {
    match t
    case 0 => MiscValue(ProjectMiscConfig("", None, None, None, 0))
    case 1 => OAuthValue(ProjectOAuthConfig("", "", None))
    case 2 => TableValue(ProjectTableConfig([], [], map[], [], "", false, false))
    case 3 => GroupValue(ProjectGroupConfig(map[]))
    case _ => current
  }

  /** A ProjectConfig row. Only `value` is rewritten by the operations of this
      model; the rest is fixed when the row is read. */
  class ProjectConfigRow {
    const id: int
    const configType: ProjectConfigType
    const key: string
    const rawValue: seq<byte>
    const created: int
    const lastUpdated: int
    var value: ConfigValue

    constructor (id: int, configType: ProjectConfigType, key: string, rawValue: seq<byte>, created: int, lastUpdated: int)
      ensures this.id == id && this.configType == configType && this.key == key
      ensures this.rawValue == rawValue && this.created == created && this.lastUpdated == lastUpdated
      ensures value == NoValue
    {
      this.id := id;
      this.configType := configType;
      this.key := key;
      this.rawValue := rawValue;
      this.created := created;
      this.lastUpdated := lastUpdated;
      value := NoValue;
    }
  }

  /** The loop of GetAllProjectConfig: every row's value becomes what JSON
      decoding of its raw value makes of the prototype for its type; decoding
      errors are ignored. `decode` stands for json.Unmarshal. */
  method GetAllProjectConfig(p: seq<ProjectConfigRow>, decode: (ConfigValue, seq<byte>) -> ConfigValue)
    requires forall i, j :: 0 <= i < j < |p| ==> p[i] != p[j]
    modifies set i | 0 <= i < |p| :: p[i]
    ensures forall i :: 0 <= i < |p| ==>
      p[i].value == decode(Prototype(p[i].configType, old(p[i].value)), p[i].rawValue)
  {
    var n := 0;
    while n < |p|
      invariant 0 <= n <= |p|
      invariant forall i :: 0 <= i < n ==>
        p[i].value == decode(Prototype(p[i].configType, old(p[i].value)), p[i].rawValue)
      invariant forall i :: n <= i < |p| ==> p[i].value == old(p[i].value)
    {
      var pc := p[n];
      var proto := Prototype(pc.configType, pc.value);
      pc.value := decode(proto, pc.rawValue);
      n := n + 1;
    }
  }
}
