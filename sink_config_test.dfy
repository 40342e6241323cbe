/**
  The sink configuration's unit cases, each stated as a lemma about `Create` applied to
  the property map the case builds: the minimal map holds only a connection URL.
*/
module SinkConfigTest {
  import opened Results
  import opened Strings
  import opened ConfigValues
  import opened TableTypes
  import opened SinkConfig

  const URL := "jdbc:mysql://something"

  /** The map every case starts from: the connection URL alone. */
  const Minimal: map<string, string> := map[CONNECTION_URL := URL]

  /** The settings `Minimal` gives for the keys it leaves out. */
  lemma MinimalSettings()
    ensures CONNECTION_URL in Minimal && Trim(Minimal[CONNECTION_URL]) == URL
    ensures TableNameFormat(Minimal) == TABLE_NAME_FORMAT_DEFAULT
    ensures HoldlockSetting(Minimal) == Some(true)
  {
    assert IsTrimmed(URL);
    assert TABLE_NAME_FORMAT !in Minimal && MSSQL_USE_MERGE_HOLDLOCK !in Minimal;
  }

  /** A table-type list of one name with blanks around it gives the kind the name denotes. */
  lemma PaddedName(pre: string, name: string, post: string, t: TableType)
    requires AllBlank(pre) && AllBlank(post) && IsTrimmed(name) && name != ""
    requires ',' !in pre + name + post
    requires EqualsIgnoreCase(name, Name(t))
    ensures Parse(ParseList(pre + name + post)) == Ok({t})
  {
    var v := pre + name + post;
    assert v[|pre|] == name[0];
    ParseListOne(v);
    TrimIgnoresPadding(pre, name, post);
    TrimTrimmed(name);
    GetIff(name, t);
    ParseOne(name, t);
  }

  /** Two names denoting `s` and `t` give {s, t}. */
  lemma TwoNames(x: string, y: string, s: TableType, t: TableType)
    requires Get(x) == Some(s) && Get(y) == Some(t)
    ensures Parse([x] + [y]) == Ok({s} + {t})
  {
    ParseOne(y, t);
    ParseCons(x, [y], s);
  }

  /** A table-type list of two comma-free names gives both kinds. */
  lemma TwoTypeList(a: string, b: string, s: TableType, t: TableType)
    requires ',' !in a && ',' !in b
    requires EqualsIgnoreCase(Trim(a), Name(s)) && EqualsIgnoreCase(Trim(b), Name(t))
    ensures Parse(ParseList(a + [','] + b)) == Ok({s} + {t})
  {
    ParseListTwo(a, b);
    TrimTrimmed(Trim(a));
    TrimTrimmed(Trim(b));
    GetIff(Trim(a), s);
    GetIff(Trim(b), t);
    TwoNames(Trim(a), Trim(b), s, t);
  }

  /** The minimal map with `table.types` set to `value` is accepted with the kinds `value` denotes. */
  lemma WithTableTypes(value: string, kinds: set<TableType>)
    requires Parse(ParseList(value)) == Ok(kinds)
    ensures Create(Minimal[TABLE_TYPES := value]) == Ok(JdbcSinkConfig(URL, TABLE_NAME_FORMAT_DEFAULT, kinds, true))
  {
    MinimalSettings();
    CreateWithTableTypes(Minimal, value);
  }

  /** shouldFailToCreateConfigWithoutConnectionUrl */
  lemma RejectsMissingConnectionUrl()
    ensures Create(Minimal - {CONNECTION_URL}) == Err(Missing(CONNECTION_URL))
  {
    assert CONNECTION_URL !in Minimal - {CONNECTION_URL};
  }

  /** shouldFailToCreateConfigWithEmptyTableNameFormat */
  lemma RejectsEmptyTableNameFormat()
    ensures Create(Minimal[TABLE_NAME_FORMAT := ""]) == Err(Invalid(TABLE_NAME_FORMAT, ""))
  {
    BlankTableNameFormatRejected(Minimal[TABLE_NAME_FORMAT := ""]);
  }

  /** shouldCreateConfigWithMinimalConfigs and shouldCreateConfigWithHoldlock */
  lemma MinimalConfig()
    ensures Create(Minimal) == Ok(JdbcSinkConfig(URL, TABLE_NAME_FORMAT_DEFAULT, {Table}, true))
  {
    MinimalSettings();
    DefaultsParse();
    assert TABLE_TYPES !in Minimal;
  }

  /** shouldCreateConfigWithNoHoldlock */
  lemma NoHoldlock()
    ensures Create(Minimal[MSSQL_USE_MERGE_HOLDLOCK := "false"]).Ok?
    ensures !Create(Minimal[MSSQL_USE_MERGE_HOLDLOCK := "false"]).value.useHoldlockInMerge
  {
    var p := Minimal[MSSQL_USE_MERGE_HOLDLOCK := "false"];
    MinimalSettings();
    assert IsTrimmed("false");
    assert TableNameFormat(p) == TableNameFormat(Minimal);
    assert TableTypesSetting(p) == Ok({Table});
    assert HoldlockSetting(p) == Some(false);
  }

  /** shouldCreateConfigWithAdditionalConfigs */
  lemma AdditionalConfigs()
    ensures Create(Minimal["auto.create" := "true"]["pk.mode" := "kafka"]
                          ["pk.fields" := "kafka_topic,kafka_partition,kafka_offset"])
         == Ok(JdbcSinkConfig(URL, TABLE_NAME_FORMAT_DEFAULT, {Table}, true))
  {
    MinimalConfig();
    OtherKeys();
    UnrelatedKeys(Minimal, "auto.create", "true", "pk.mode", "kafka",
                  "pk.fields", "kafka_topic,kafka_partition,kafka_offset");
  }

  /** The keys of the other sink settings are none of the modelled ones. */
  lemma OtherKeys()
    ensures "auto.create" !in ModelledKeys && "pk.mode" !in ModelledKeys && "pk.fields" !in ModelledKeys
  {
  }

  /** Three keys outside the modelled ones, added in turn, change nothing. */
  lemma UnrelatedKeys(props: map<string, string>, k1: string, v1: string, k2: string, v2: string, k3: string, v3: string)
    requires k1 !in ModelledKeys && k2 !in ModelledKeys && k3 !in ModelledKeys
    ensures Create(props[k1 := v1][k2 := v2][k3 := v3]) == Create(props)
  {
    UnrelatedKeysIgnored(props, k1, v1);
    UnrelatedKeysIgnored(props[k1 := v1], k2, v2);
    UnrelatedKeysIgnored(props[k1 := v1][k2 := v2], k3, v3);
  }

  /** The spellings used below: each is trimmed, holds no comma and names its kind. */
  lemma ViewSpelling()
    ensures IsTrimmed("view") && ',' !in "view" && EqualsIgnoreCase("view", Name(View))
  {
  }

  lemma TableSpelling()
    ensures IsTrimmed("table") && ',' !in "table" && EqualsIgnoreCase("table", Name(Table))
  {
  }

  lemma PartitionedTableSpelling()
    ensures IsTrimmed("partitioned table") && ',' !in "partitioned table"
    ensures EqualsIgnoreCase("partitioned table", Name(PartitionedTable))
  {
    assert EqualsIgnoreCase("partitioned", "PARTITIONED") && EqualsIgnoreCase(" table", " TABLE");
    EqualsIgnoreCaseConcat("partitioned", " table", "PARTITIONED", " TABLE");
    assert "partitioned" + " table" == "partitioned table";
    assert "PARTITIONED" + " TABLE" == Name(PartitionedTable);
  }

  /** The padding used below: blanks only, no comma. */
  lemma Paddings()
    ensures AllBlank("") && AllBlank(" ") && AllBlank(" \t\n  ") && AllBlank(" \t \n")
    ensures ',' !in " " && ',' !in " \t\n  " && ',' !in " \t \n"
  {
  }

  /** shouldCreateConfigWithViewOnly */
  lemma ViewOnly()
    ensures Create(Minimal[TABLE_TYPES := "view"]).Ok?
    ensures Create(Minimal[TABLE_TYPES := "view"]).value.tableTypes == {View}
  {
    ViewSpelling();
    Paddings();
    PaddedName("", "view", "", View);
    assert "" + "view" + "" == "view";
    WithTableTypes("view", {View});
  }

  /** shouldCreateConfigWithTableOnly */
  lemma TableOnly()
    ensures Create(Minimal[TABLE_TYPES := "table"]).Ok?
    ensures Create(Minimal[TABLE_TYPES := "table"]).value.tableTypes == {Table}
  {
    TableSpelling();
    Paddings();
    PaddedName("", "table", "", Table);
    assert "" + "table" + "" == "table";
    WithTableTypes("table", {Table});
  }

  /** shouldCreateConfigWithPartitionedTableOnly: the space inside the name is kept. */
  lemma PartitionedTableOnly()
    ensures Create(Minimal[TABLE_TYPES := "partitioned table"]).Ok?
    ensures Create(Minimal[TABLE_TYPES := "partitioned table"]).value.tableTypes == {PartitionedTable}
  {
    PartitionedTableSpelling();
    Paddings();
    PaddedName("", "partitioned table", "", PartitionedTable);
    assert "" + "partitioned table" + "" == "partitioned table";
    WithTableTypes("partitioned table", {PartitionedTable});
  }

  /** shouldCreateConfigWithViewAndTable: order and blanks around the comma do not matter. */
  lemma ViewAndTable()
    ensures Create(Minimal[TABLE_TYPES := "view,table"]).Ok?
    ensures Create(Minimal[TABLE_TYPES := "view,table"]).value.tableTypes == {Table, View}
    ensures Create(Minimal[TABLE_TYPES := "table,view"]).Ok?
    ensures Create(Minimal[TABLE_TYPES := "table,view"]).value.tableTypes == {Table, View}
    ensures Create(Minimal[TABLE_TYPES := "table , view"]).Ok?
    ensures Create(Minimal[TABLE_TYPES := "table , view"]).value.tableTypes == {Table, View}
  {
    ViewCommaTable("view,table");
    TableCommaView("table,view");
    TableSpacedCommaView("table , view");
    assert {View} + {Table} == {Table, View} && {Table} + {View} == {Table, View};
  }

  /**
    `view,table`, taken apart at its comma. The list is a parameter equal to the literal
    (here and below) so that the verifier does not evaluate `Create` on the literal itself.
  */
  lemma ViewCommaTable(value: string)
    requires value == "view,table"
    ensures Create(Minimal[TABLE_TYPES := value]).Ok?
    ensures Create(Minimal[TABLE_TYPES := value]).value.tableTypes == {View} + {Table}
  {
    ViewSpelling();
    TableSpelling();
    Paddings();
    assert value == "" + "view" + "" + [','] + ("" + "table" + "");
    TwoAsWritten(value, "", "view", "", "", "table", "", View, Table);
  }

  /** `table,view`, taken apart at its comma. */
  lemma TableCommaView(value: string)
    requires value == "table,view"
    ensures Create(Minimal[TABLE_TYPES := value]).Ok?
    ensures Create(Minimal[TABLE_TYPES := value]).value.tableTypes == {Table} + {View}
  {
    ViewSpelling();
    TableSpelling();
    Paddings();
    assert value == "" + "table" + "" + [','] + ("" + "view" + "");
    TwoAsWritten(value, "", "table", "", "", "view", "", Table, View);
  }

  /** `table , view`, taken apart at its comma, each side with a blank next to the comma. */
  lemma TableSpacedCommaView(value: string)
    requires value == "table , view"
    ensures Create(Minimal[TABLE_TYPES := value]).Ok?
    ensures Create(Minimal[TABLE_TYPES := value]).value.tableTypes == {Table} + {View}
  {
    ViewSpelling();
    TableSpelling();
    Paddings();
    assert value == "" + "table" + " " + [','] + (" " + "view" + "");
    TwoAsWritten(value, "", "table", " ", " ", "view", "", Table, View);
  }

  /**
    A list written as two names, each with blanks around it and free of commas, and a
    comma between them.
  */
  lemma TwoAsWritten(value: string, pa: string, na: string, qa: string, pb: string, nb: string, qb: string,
                     s: TableType, t: TableType)
    requires value == pa + na + qa + [','] + (pb + nb + qb)
    requires AllBlank(pa) && AllBlank(qa) && AllBlank(pb) && AllBlank(qb)
    requires IsTrimmed(na) && IsTrimmed(nb)
    requires ',' !in pa && ',' !in na && ',' !in qa && ',' !in pb && ',' !in nb && ',' !in qb
    requires EqualsIgnoreCase(na, Name(s)) && EqualsIgnoreCase(nb, Name(t))
    ensures Create(Minimal[TABLE_TYPES := value]).Ok?
    ensures Create(Minimal[TABLE_TYPES := value]).value.tableTypes == {s} + {t}
  {
    TwoPadded(pa, na, qa, pb, nb, qb, s, t);
    WithTableTypes(value, {s} + {t});
  }

  /** Two names with blanks around them, a comma between, give both kinds. */
  lemma TwoPadded(pa: string, na: string, qa: string, pb: string, nb: string, qb: string, s: TableType, t: TableType)
    requires AllBlank(pa) && AllBlank(qa) && AllBlank(pb) && AllBlank(qb)
    requires IsTrimmed(na) && IsTrimmed(nb)
    requires ',' !in pa && ',' !in na && ',' !in qa && ',' !in pb && ',' !in nb && ',' !in qb
    requires EqualsIgnoreCase(na, Name(s)) && EqualsIgnoreCase(nb, Name(t))
    ensures Parse(ParseList(pa + na + qa + [','] + (pb + nb + qb))) == Ok({s} + {t})
  {
    var a, b := pa + na + qa, pb + nb + qb;
    assert ',' !in a && ',' !in b;
    TrimIgnoresPadding(pa, na, qa);
    TrimIgnoresPadding(pb, nb, qb);
    TrimTrimmed(na);
    TrimTrimmed(nb);
    TwoTypeList(a, b, s, t);
  }

  /** shouldCreateConfigWithLeadingWhitespaceInTableTypes */
  lemma LeadingWhitespace()
    ensures Create(Minimal[TABLE_TYPES := " \t\n  view"]).Ok?
    ensures Create(Minimal[TABLE_TYPES := " \t\n  view"]).value.tableTypes == {View}
  {
    ViewSpelling();
    Paddings();
    PaddedAsWritten(" \t\n  view", " \t\n  ", "view", "", View);
  }

  /** shouldCreateConfigWithTrailingWhitespaceInTableTypes */
  lemma TrailingWhitespace()
    ensures Create(Minimal[TABLE_TYPES := "table \t \n"]).Ok?
    ensures Create(Minimal[TABLE_TYPES := "table \t \n"]).value.tableTypes == {Table}
  {
    TableSpelling();
    Paddings();
    PaddedAsWritten("table \t \n", "", "table", " \t \n", Table);
  }

  /** A list written as one name with blanks around it. */
  lemma PaddedAsWritten(value: string, pre: string, name: string, post: string, t: TableType)
    requires value == pre + name + post
    requires AllBlank(pre) && AllBlank(post) && IsTrimmed(name) && name != ""
    requires ',' !in pre + name + post
    requires EqualsIgnoreCase(name, Name(t))
    ensures Create(Minimal[TABLE_TYPES := value]) == Ok(JdbcSinkConfig(URL, TABLE_NAME_FORMAT_DEFAULT, {t}, true))
  {
    PaddedName(pre, name, post, t);
    WithTableTypes(value, {t});
  }
}
