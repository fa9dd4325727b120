/** GoodwillSchemaField: a schema field (name, field type, position) with a
    description and the SQL attributes of the sink. Its parts are set once by
    the constructor, after the same checks as ThriftField's. */
module GoodwillSchemaFields {

  import opened Base
  import opened SqlAttributes

  /** fieldType is the type name given to SchemaFieldType, kept uninterpreted. */
  datatype GoodwillSchemaField = GoodwillSchemaField(
    name: string,
    fieldType: string,
    id: Int16,
    description: Option<string>,
    sql: Sql)

  const NoSql := Sql(None, None, None, None)

  /** The manual constructor: rejects a null name, then a scale or precision on
      a null or "string" SQL type; otherwise stores every part unchanged. */
  function New(
    name: Option<string>, fieldType: string, id: Int16, description: Option<string>,
    sqlType: Option<string>, sqlLength: Option<Int32>, sqlScale: Option<Int32>,
    sqlPrecision: Option<Int32>): (r: Result<GoodwillSchemaField>)
    ensures r.Ok? <==> name.Some? && ScaleAndPrecisionAllowed(sqlType, sqlScale, sqlPrecision)
    ensures name.None? ==> r == Err(IllegalArgument("GoodwillSchemaField name can't be null"))
    ensures (name.Some? && !ScaleAndPrecisionAllowed(sqlType, sqlScale, sqlPrecision)) ==>
      r == Err(IllegalArgument("Strings cannot have a scale or precision"))
    ensures r.Ok? ==>
      && r.value.name == name.value
      && r.value.fieldType == fieldType
      && r.value.id == id
      && r.value.description == description
      && r.value.sql == Sql(sqlType, sqlLength, sqlScale, sqlPrecision)
  {
    if name.None? then Err(IllegalArgument("GoodwillSchemaField name can't be null"))
    else if !ScaleAndPrecisionAllowed(sqlType, sqlScale, sqlPrecision) then
      Err(IllegalArgument("Strings cannot have a scale or precision"))
    else Ok(GoodwillSchemaField(name.value, fieldType, id, description,
                                Sql(sqlType, sqlLength, sqlScale, sqlPrecision)))
  }

  /** The JSON-creator constructor: a missing sql object stands for four null
      SQL parts; a present one is passed on part by part. */
  function FromJson(
    name: Option<string>, fieldType: string, id: Int16, description: Option<string>,
    sql: Option<Sql>): (r: Result<GoodwillSchemaField>)
    ensures r.Ok? <==> name.Some? && (sql.None? || ScaleAndPrecisionAllowed(sql.value.sqlType, sql.value.scale, sql.value.precision))
    ensures r.Ok? ==> r.value.sql == sql.GetOr(NoSql) && r.value.name == name.value && r.value.description == description
    ensures sql.None? ==> r == New(name, fieldType, id, description, None, None, None, None)
    ensures sql.Some? ==> r == New(name, fieldType, id, description, sql.value.sqlType,
                                   sql.value.length, sql.value.scale, sql.value.precision)
  {
    var s := sql.GetOr(NoSql);
    New(name, fieldType, id, description, s.sqlType, s.length, s.scale, s.precision)
  }

  /** getFullSQLType, by the case table shared with ThriftField. */
  function FullSqlTypeOf(field: GoodwillSchemaField): (r: Option<string>)
    ensures r.None? <==> field.sql.sqlType.None?
    ensures r.Some? ==>
      && r.value == field.sql.sqlType.value + ArgumentsText(ExpectedArguments(field.sql))
      && ParseArguments(r.value[|field.sql.sqlType.value|..]) == Some(ExpectedArguments(field.sql))
  {
    if field.sql.sqlType.None? then None
    else
      FullSqlTypeFollowsTable(field.sql);
      FullSqlType(field.sql)
  }

  /** The values the two toMap methods put in their maps. */
  datatype MapValue =
    | Text(text: string)
    | Number(number: int)
    | FieldTypeValue(fieldType: string)
    | SqlValue(sql: Sql)

  const FieldKeys: set<string> := {"name", "type", "position", "description", "sql"}
  const SqlKeys: set<string> := {"type", "length", "scale", "precision"}

  function TextOrEmpty(s: Option<string>): MapValue {
    if s.Some? then Text(s.value) else Text("")
  }

  function NumberOrEmpty(n: Option<Int32>): MapValue {
    if n.Some? then Number(n.value) else Text("")
  }

  /** Sql.toMap: each null part becomes "". */
  function SqlToMap(sql: Sql): (m: map<string, MapValue>)
    ensures m.Keys == SqlKeys
    ensures m["type"] == Text(sql.sqlType.GetOr(""))
    ensures m["length"] == (if sql.length.Some? then Number(sql.length.value) else Text(""))
    ensures m["scale"] == (if sql.scale.Some? then Number(sql.scale.value) else Text(""))
    ensures m["precision"] == (if sql.precision.Some? then Number(sql.precision.value) else Text(""))
  {
    map["type" := TextOrEmpty(sql.sqlType),
        "length" := NumberOrEmpty(sql.length),
        "scale" := NumberOrEmpty(sql.scale),
        "precision" := NumberOrEmpty(sql.precision)]
  }

  /** toMap: name, type, position, description (null as "") and the Sql object. */
  function ToMap(field: GoodwillSchemaField): (m: map<string, MapValue>)
    ensures m.Keys == FieldKeys
    ensures m["name"] == Text(field.name)
    ensures m["type"] == FieldTypeValue(field.fieldType)
    ensures m["position"] == Number(field.id as int)
    ensures m["description"] == Text(field.description.GetOr(""))
    ensures m["sql"] == SqlValue(field.sql)
  {
    map["name" := Text(field.name),
        "type" := FieldTypeValue(field.fieldType),
        "position" := Number(field.id),
        "description" := TextOrEmpty(field.description),
        "sql" := SqlValue(field.sql)]
  }

  /** Two descriptions that toMap cannot tell apart: equal, or one null and the other empty. */
  predicate SameDescription(a: Option<string>, b: Option<string>) {
    a.GetOr("") == b.GetOr("")
  }

  /** Sql.toMap forgets only the difference between a null and an empty SQL
      type; lengths, scales and precisions come back exactly, null included. */
  lemma SqlToMapInjective(a: Sql, b: Sql)
    ensures SqlToMap(a) == SqlToMap(b) <==>
      && a.sqlType.GetOr("") == b.sqlType.GetOr("")
      && a.length == b.length && a.scale == b.scale && a.precision == b.precision
  {
    if SqlToMap(a) == SqlToMap(b) {
      assert SqlToMap(a)["type"] == SqlToMap(b)["type"];
      assert SqlToMap(a)["length"] == SqlToMap(b)["length"];
      assert SqlToMap(a)["scale"] == SqlToMap(b)["scale"];
      assert SqlToMap(a)["precision"] == SqlToMap(b)["precision"];
    }
  }

  /** toMap forgets only the difference between a null and an empty description. */
  lemma ToMapInjective(f: GoodwillSchemaField, g: GoodwillSchemaField)
    ensures ToMap(f) == ToMap(g) <==>
      && f.name == g.name && f.fieldType == g.fieldType && f.id == g.id && f.sql == g.sql
      && SameDescription(f.description, g.description)
  {
    if ToMap(f) == ToMap(g) {
      assert ToMap(f)["name"] == ToMap(g)["name"];
      assert ToMap(f)["type"] == ToMap(g)["type"];
      assert ToMap(f)["position"] == ToMap(g)["position"];
      assert ToMap(f)["description"] == ToMap(g)["description"];
      assert ToMap(f)["sql"] == ToMap(g)["sql"];
    }
  }

  /** The sink may give a scale and precision to types other than null and
      "string", such as "varchar". */
  lemma VarcharAcceptsScaleAndPrecision()
    ensures var r := New(Some("fileName"), "string", 1, Some("Name of the file attached to a blob"),
                         Some("varchar"), Some(255), Some(12), Some(12));
      r.Ok? && r.value.sql.scale == Some(12) && r.value.sql.precision == Some(12)
  {
  }
}
