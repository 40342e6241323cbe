/**
  The sink connector's configuration (`JdbcSinkConfig`): a string-to-string property map
  is either rejected with a configuration error or turned into the settings the sink
  uses. Modelled here: the required connection URL, the table name format (which must
  not be empty), the set of table types, and whether MERGE statements take HOLDLOCK.
*/
module SinkConfig {
  import opened Results
  import opened Strings
  import opened ConfigValues
  import opened TableTypes

  const CONNECTION_URL := "connection.url"
  const TABLE_NAME_FORMAT := "table.name.format"
  const TABLE_NAME_FORMAT_DEFAULT := "${topic}"
  const TABLE_TYPES := "table.types"
  const TABLE_TYPES_DEFAULT := "TABLE"
  const MSSQL_USE_MERGE_HOLDLOCK := "mssql.use.merge.holdlock"
  const MSSQL_USE_MERGE_HOLDLOCK_DEFAULT := "true"

  /** The keys this model reads; every other key is left to parts of the connector not modelled here. */
  const ModelledKeys: set<string> := {CONNECTION_URL, TABLE_NAME_FORMAT, TABLE_TYPES, MSSQL_USE_MERGE_HOLDLOCK}

  /**
    Why a property map is rejected: a required key without a value, or a value the key
    does not accept. The connector raises most of these as a `ConfigException`; an empty
    `table.types` list fails in `EnumSet.copyOf` instead, and is reported here alike.
  */
  datatype ConfigError = Missing(key: string) | Invalid(key: string, value: string)

  datatype JdbcSinkConfig = JdbcSinkConfig(
    connectionUrl: string,
    tableNameFormat: string,
    tableTypes: set<TableType>,
    useHoldlockInMerge: bool)

  /**
    The `table.name.format` setting: the given text trimmed, or the default. It is empty
    exactly when a text is given that is all blank.
  */
  function TableNameFormat(props: map<string, string>): (r: string)
    ensures IsTrimmed(r)
    ensures r == "" <==> TABLE_NAME_FORMAT in props && AllBlank(props[TABLE_NAME_FORMAT])
  {
    if TABLE_NAME_FORMAT in props then
      TrimEmptyIffBlank(props[TABLE_NAME_FORMAT]);
      Trim(props[TABLE_NAME_FORMAT])
    else
      assert IsTrimmed(TABLE_NAME_FORMAT_DEFAULT);
      TABLE_NAME_FORMAT_DEFAULT
  }

  /**
    The `table.types` setting: the types the given list names, or the default's, {TABLE}.
    A given list is accepted exactly when it is not empty and every item names a kind,
    and then the set holds exactly the kinds the items name.
  */
  function TableTypesSetting(props: map<string, string>): (r: Result<set<TableType>, ParseError>)
    ensures TABLE_TYPES !in props ==> r == Ok({Table})
    ensures TABLE_TYPES in props ==>
      (r.Ok? <==> |ParseList(props[TABLE_TYPES])| > 0 && AllKnown(ParseList(props[TABLE_TYPES])))
    ensures TABLE_TYPES in props && r.Ok? ==>
      forall t :: t in r.value <==> NamesKind(ParseList(props[TABLE_TYPES]), t)
  {
    if TABLE_TYPES in props then
      ParseIff(ParseList(props[TABLE_TYPES]));
      Parse(ParseList(props[TABLE_TYPES]))
    else Ok({Table})
  }

  /**
    The `mssql.use.merge.holdlock` setting: the given boolean, or the default, true. It is
    true exactly when no value or `true` in any case is given, false exactly for `false`.
  */
  function HoldlockSetting(props: map<string, string>): (r: Option<bool>)
    ensures r == Some(true) <==>
      MSSQL_USE_MERGE_HOLDLOCK !in props || EqualsIgnoreCase(Trim(props[MSSQL_USE_MERGE_HOLDLOCK]), "true")
    ensures r == Some(false) <==>
      MSSQL_USE_MERGE_HOLDLOCK in props && EqualsIgnoreCase(Trim(props[MSSQL_USE_MERGE_HOLDLOCK]), "false")
  {
    if MSSQL_USE_MERGE_HOLDLOCK in props then ParseBool(props[MSSQL_USE_MERGE_HOLDLOCK]) else Some(true)
  }

  /** The settings used for absent keys are what the default texts parse to. */
  lemma DefaultsParse()
    ensures Trim(TABLE_NAME_FORMAT_DEFAULT) == TABLE_NAME_FORMAT_DEFAULT
    ensures Parse(ParseList(TABLE_TYPES_DEFAULT)) == Ok({Table})
    ensures ParseBool(MSSQL_USE_MERGE_HOLDLOCK_DEFAULT) == Some(true)
  {
    DefaultTableNameFormat(TABLE_NAME_FORMAT_DEFAULT);
    DefaultTableTypes(TABLE_TYPES_DEFAULT);
    DefaultHoldlock(MSSQL_USE_MERGE_HOLDLOCK_DEFAULT);
  }

  /**
    `${topic}` is already trimmed. The defaults' lemmas take the text as a parameter equal
    to the constant, so that the verifier does not evaluate `Trim` on the literal itself.
  */
  lemma DefaultTableNameFormat(value: string)
    requires value == TABLE_NAME_FORMAT_DEFAULT
    ensures Trim(value) == value
  {
    assert IsTrimmed(value);
    TrimTrimmed(value);
  }

  /** `TABLE` lists the one kind, {TABLE}. */
  lemma DefaultTableTypes(value: string)
    requires value == TABLE_TYPES_DEFAULT
    ensures Parse(ParseList(value)) == Ok({Table})
  {
    var n := Name(Table);
    assert n == value;
    ParseListJoin([n]);
    assert Join([n], ',') == n;
    GetName(Table);
    ParseOne(n, Table);
  }

  /** `true` reads as the boolean true. */
  lemma DefaultHoldlock(value: string)
    requires value == MSSQL_USE_MERGE_HOLDLOCK_DEFAULT
    ensures ParseBool(value) == Some(true)
  {
    assert IsTrimmed(value);
    TrimTrimmed(value);
  }

  /**
    `new JdbcSinkConfig(props)`. `connection.url` is required; `table.name.format`
    (default `${topic}`) must not be empty once trimmed; `table.types` (default `TABLE`)
    must list at least one known table type; `mssql.use.merge.holdlock` (default true)
    must be a boolean.
  */
  function Create(props: map<string, string>): (r: Result<JdbcSinkConfig, ConfigError>)
    ensures CONNECTION_URL !in props ==> r == Err(Missing(CONNECTION_URL))
    ensures r.Ok? ==> CONNECTION_URL in props && r.value.connectionUrl == Trim(props[CONNECTION_URL])
    ensures r.Ok? ==> r.value.tableNameFormat != "" && r.value.tableTypes != {}
  {
    if CONNECTION_URL !in props then Err(Missing(CONNECTION_URL))
    else if TableNameFormat(props) == "" then Err(Invalid(TABLE_NAME_FORMAT, props[TABLE_NAME_FORMAT]))
    else
      match TableTypesSetting(props)
      case Err(_) => Err(Invalid(TABLE_TYPES, props[TABLE_TYPES]))
      case Ok(kinds) =>
        match HoldlockSetting(props)
        case None => Err(Invalid(MSSQL_USE_MERGE_HOLDLOCK, props[MSSQL_USE_MERGE_HOLDLOCK]))
        case Some(b) => Ok(JdbcSinkConfig(Trim(props[CONNECTION_URL]), TableNameFormat(props), kinds, b))
  }

  /**
    A property map is accepted exactly when it gives a connection URL, no blank table
    name format, a non-empty table-type list (if any) whose every item names a known
    type, and a boolean (if anything) for the HOLDLOCK flag. The accepted table types
    are then exactly the ones the items name ({TABLE} when no list is given).
  */
  lemma CreateIff(props: map<string, string>)
    ensures Create(props).Ok? <==>
      && CONNECTION_URL in props
      && (TABLE_NAME_FORMAT in props ==> !AllBlank(props[TABLE_NAME_FORMAT]))
      && (TABLE_TYPES in props ==> |ParseList(props[TABLE_TYPES])| > 0 && AllKnown(ParseList(props[TABLE_TYPES])))
      && (MSSQL_USE_MERGE_HOLDLOCK in props ==> ParseBool(props[MSSQL_USE_MERGE_HOLDLOCK]).Some?)
    ensures Create(props).Ok? && TABLE_TYPES in props ==>
      forall t :: t in Create(props).value.tableTypes <==> NamesKind(ParseList(props[TABLE_TYPES]), t)
    ensures Create(props).Ok? && TABLE_TYPES !in props ==> Create(props).value.tableTypes == {Table}
  {
    if TABLE_NAME_FORMAT in props {
      TrimEmptyIffBlank(props[TABLE_NAME_FORMAT]);
    }
    if TABLE_TYPES in props {
      ParseIff(ParseList(props[TABLE_TYPES]));
    }
  }

  /** A table name format that trims to nothing is rejected, whatever else the map holds. */
  lemma BlankTableNameFormatRejected(props: map<string, string>)
    requires CONNECTION_URL in props
    requires TABLE_NAME_FORMAT in props && AllBlank(props[TABLE_NAME_FORMAT])
    ensures Create(props) == Err(Invalid(TABLE_NAME_FORMAT, props[TABLE_NAME_FORMAT]))
  {
    TrimEmptyIffBlank(props[TABLE_NAME_FORMAT]);
  }

  /**
    An accepted configuration uses HOLDLOCK in MERGE statements exactly when no value is
    given for the flag or the value is `true` in any case.
  */
  lemma HoldlockIff(props: map<string, string>)
    requires Create(props).Ok?
    ensures Create(props).value.useHoldlockInMerge <==>
      MSSQL_USE_MERGE_HOLDLOCK !in props || EqualsIgnoreCase(Trim(props[MSSQL_USE_MERGE_HOLDLOCK]), "true")
  {
  }

  /** Keys this model does not read (`auto.create`, `pk.mode`, `pk.fields`, ...) change nothing. */
  lemma UnrelatedKeysIgnored(props: map<string, string>, key: string, value: string)
    requires key !in ModelledKeys
    ensures Create(props[key := value]) == Create(props)
  {
    var p := props[key := value];
    assert TableNameFormat(p) == TableNameFormat(props);
    assert TableTypesSetting(p) == TableTypesSetting(props);
    assert HoldlockSetting(p) == HoldlockSetting(props);
  }

  /**
    Two table-type lists (each item free of commas) written one after the other mean the
    same in either order: both orders are accepted or both rejected, and accepted ones
    give the same settings. With `xs == ["table "]` and `ys == [" view"]`, for example,
    `"table , view"` means the same as `" view,table "`.
  */
  lemma TableTypesIgnoreOrder(props: map<string, string>, xs: seq<string>, ys: seq<string>)
    requires |xs| >= 1 && |ys| >= 1
    requires forall i :: 0 <= i < |xs| ==> ',' !in xs[i]
    requires forall i :: 0 <= i < |ys| ==> ',' !in ys[i]
    ensures var ab := Create(props[TABLE_TYPES := Join(xs + ys, ',')]);
      var ba := Create(props[TABLE_TYPES := Join(ys + xs, ',')]);
      ab.Ok? == ba.Ok? && (ab.Ok? ==> ab == ba)
  {
    ListOfLists(xs, ys);
    ListOfLists(ys, xs);
    ParseIgnoresOrder(TrimAll(xs), TrimAll(ys));
    CreateWithTableTypes(props, Join(xs + ys, ','));
    CreateWithTableTypes(props, Join(ys + xs, ','));
  }

  /** Two lists written one after the other read as the items of the first, then those of the second. */
  lemma ListOfLists(xs: seq<string>, ys: seq<string>)
    requires |xs| >= 1 && |ys| >= 1
    requires forall i :: 0 <= i < |xs| ==> ',' !in xs[i]
    requires forall i :: 0 <= i < |ys| ==> ',' !in ys[i]
    ensures ParseList(Join(xs + ys, ',')) == TrimAll(xs) + TrimAll(ys)
  {
    forall i | 0 <= i < |xs + ys| ensures ',' !in (xs + ys)[i] {
      if i >= |xs| {
        assert (xs + ys)[i] == ys[i - |xs|];
      }
    }
    ParseListOfJoin(xs + ys);
    TrimAllConcat(xs, ys);
  }

  /** Setting `table.types` to `value` leaves the other settings as the map gives them. */
  lemma CreateWithTableTypes(props: map<string, string>, value: string)
    ensures var r := Create(props[TABLE_TYPES := value]);
      && (r.Ok? <==> CONNECTION_URL in props && TableNameFormat(props) != ""
                     && Parse(ParseList(value)).Ok? && HoldlockSetting(props).Some?)
      && (r.Ok? ==> r.value == JdbcSinkConfig(Trim(props[CONNECTION_URL]), TableNameFormat(props),
                                              Parse(ParseList(value)).value, HoldlockSetting(props).value))
  {
    var p := props[TABLE_TYPES := value];
    assert CONNECTION_URL in p <==> CONNECTION_URL in props;
    assert TableNameFormat(p) == TableNameFormat(props);
    assert TableTypesSetting(p) == Parse(ParseList(value));
    assert HoldlockSetting(p) == HoldlockSetting(props);
  }
}
