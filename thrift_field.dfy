/** ThriftField: one field of a Thrift type. Its Thrift type is kept as a TType
    byte and shown to people as one of seven names; its SQL attributes
    describe the column a data-warehouse sink stores it in. */
module ThriftFields {

  import opened Base
  import opened Decimal
  import opened SqlAttributes

  // Human-readable names of the Thrift types.
  const StringName := "string"
  const I64Name := "i64"
  const I32Name := "i32"
  const I16Name := "i16"
  const ByteName := "i8"
  const BoolName := "bool"
  const DoubleName := "double"

  const TypeNames: set<string> := {StringName, I64Name, I32Name, I16Name, ByteName, BoolName, DoubleName}

  // TType codes of org.apache.thrift.protocol.TType. The model relies only on
  // their being seven distinct bytes.
  const TBool: Byte := 2
  const TByte: Byte := 3
  const TDouble: Byte := 4
  const TI16: Byte := 6
  const TI32: Byte := 8
  const TI64: Byte := 10
  const TString: Byte := 11

  const TypeCodes: set<Byte> := {TString, TI64, TI32, TI16, TByte, TBool, TDouble}

  /** ttypeFromString: the code of a type name. A null name fails on the
      string comparison; any other unknown name is rejected. */
  function TTypeFromString(typeString: Option<string>): (r: Result<Byte>)
    ensures r.Ok? <==> typeString.Some? && typeString.value in TypeNames
    ensures r.Ok? ==> r.value in TypeCodes
    ensures typeString.None? ==> r == Err(NullPointer)
    ensures typeString.Some? && typeString.value !in TypeNames ==>
      r == Err(IllegalArgument(typeString.value + " not a valid TType"))
  {
    if typeString.None? then Err(NullPointer)
    else
      var t := typeString.value;
      if t == StringName then Ok(TString)
      else if t == I64Name then Ok(TI64)
      else if t == I32Name then Ok(TI32)
      else if t == I16Name then Ok(TI16)
      else if t == ByteName then Ok(TByte)
      else if t == BoolName then Ok(TBool)
      else if t == DoubleName then Ok(TDouble)
      else Err(IllegalArgument(t + " not a valid TType"))
  }

  /** typeStringfromTType: the name of a type code; any other byte is rejected. */
  function TypeStringFromTType(b: Byte): (r: Result<string>)
    ensures r.Ok? <==> b in TypeCodes
    ensures r.Ok? ==> r.value in TypeNames
    ensures r.Err? ==> r == Err(IllegalArgument(IntToString(b) + " not a valid TType"))
  {
    if b == TString then Ok(StringName)
    else if b == TI64 then Ok(I64Name)
    else if b == TI32 then Ok(I32Name)
    else if b == TI16 then Ok(I16Name)
    else if b == TByte then Ok(ByteName)
    else if b == TBool then Ok(BoolName)
    else if b == TDouble then Ok(DoubleName)
    else Err(IllegalArgument(IntToString(b) + " not a valid TType"))
  }

  /** Naming a type and looking its code up again gives the name back. */
  lemma TypeNameRoundTrip(name: string)
    requires name in TypeNames
    ensures TTypeFromString(Some(name)).Ok?
    ensures TypeStringFromTType(TTypeFromString(Some(name)).value) == Ok(name)
  {
  }

  /** Looking up a code's name and its code again gives the code back; so the
      seven codes are pairwise distinct. */
  lemma TypeCodeRoundTrip(b: Byte)
    requires b in TypeCodes
    ensures TypeStringFromTType(b).Ok?
    ensures TTypeFromString(Some(TypeStringFromTType(b).value)) == Ok(b)
  {
  }

  lemma TypeCodesDistinct()
    ensures |TypeCodes| == |TypeNames| == 7
  {
  }

  /** The checks of the manual constructor, in the order it makes them; on
      success, the code of the type name. */
  function CheckFieldArguments(
    name: Option<string>, typeString: Option<string>, position: Option<Int32>,
    sqlType: Option<string>, sqlScale: Option<Int32>, sqlPrecision: Option<Int32>): (r: Result<Byte>)
    ensures r.Ok? <==>
      && name.Some?
      && typeString.Some? && typeString.value in TypeNames
      && position.Some?
      && ScaleAndPrecisionAllowed(sqlType, sqlScale, sqlPrecision)
    ensures r.Ok? ==> r == TTypeFromString(typeString)
    ensures name.None? ==> r == Err(IllegalArgument("ThriftField name can't be null"))
    ensures name.Some? && TTypeFromString(typeString).Err? ==> r == Err(TTypeFromString(typeString).error)
    ensures name.Some? && TTypeFromString(typeString).Ok? && position.None? ==>
      r == Err(IllegalArgument("ThriftField position can't be null"))
    ensures (name.Some? && TTypeFromString(typeString).Ok? && position.Some? &&
             !ScaleAndPrecisionAllowed(sqlType, sqlScale, sqlPrecision)) ==>
      r == Err(IllegalArgument("Strings cannot have a scale or precision"))
  {
    if name.None? then Err(IllegalArgument("ThriftField name can't be null"))
    else
      var code := TTypeFromString(typeString);
      if code.Err? then Err(code.error)
      else if position.None? then Err(IllegalArgument("ThriftField position can't be null"))
      else if !ScaleAndPrecisionAllowed(sqlType, sqlScale, sqlPrecision) then
        Err(IllegalArgument("Strings cannot have a scale or precision"))
      else code
  }

  class ThriftField {
    const name: string
    var ttype: Byte
    const position: Int32
    const description: Option<string>
    const sql: Sql

    /** The stored code is one of the seven, so getType always has a name for it. */
    predicate Valid()
      reads this
    {
      ttype in TypeCodes
    }

    constructor (name: string, ttype: Byte, position: Int32, description: Option<string>, sql: Sql)
      ensures this.name == name && this.ttype == ttype && this.position == position
      ensures this.description == description && this.sql == sql
    {
      this.name := name;
      this.ttype := ttype;
      this.position := position;
      this.description := description;
      this.sql := sql;
    }

    /** The manual constructor: the checks of CheckFieldArguments, then every
        part stored unchanged, the SQL parts in a never-null Sql. */
    static method Create(
      name: Option<string>, typeString: Option<string>, position: Option<Int32>,
      description: Option<string>, sqlType: Option<string>, sqlLength: Option<Int32>,
      sqlScale: Option<Int32>, sqlPrecision: Option<Int32>) returns (r: Result<ThriftField>)
      ensures var check := CheckFieldArguments(name, typeString, position, sqlType, sqlScale, sqlPrecision);
        && (r.Ok? <==> check.Ok?)
        && (r.Err? ==> r.error == check.error)
      ensures r.Ok? ==> fresh(r.value) && r.value.Valid()
      ensures r.Ok? ==>
        && r.value.name == name.value
        && r.value.GetType() == Ok(typeString.value)
        && r.value.position == position.value
        && r.value.description == description
        && r.value.sql == Sql(sqlType, sqlLength, sqlScale, sqlPrecision)
    {
      var check := CheckFieldArguments(name, typeString, position, sqlType, sqlScale, sqlPrecision);
      if check.Err? {
        return Err(check.error);
      }
      TypeNameRoundTrip(typeString.value);
      var field := new ThriftField(name.value, check.value, position.value, description,
                                   Sql(sqlType, sqlLength, sqlScale, sqlPrecision));
      r := Ok(field);
    }

    /** getType: the human-readable name of the stored code. */
    function GetType(): (r: Result<string>)
      reads this
      ensures Valid() ==> r.Ok? && r.value in TypeNames
      ensures r.Ok? ==> TTypeFromString(Some(r.value)) == Ok(ttype)
    {
      TypeStringFromTType(ttype)
    }

    /** setType: replaces the code by that of the given name, or throws and
        leaves it as it was, exactly as ttypeFromString decides. */
    method SetType(typeString: Option<string>) returns (outcome: Outcome)
      modifies this`ttype
      ensures var code := TTypeFromString(typeString);
        && (code.Ok? ==> outcome == Pass && ttype == code.value)
        && (code.Err? ==> outcome == Fail(code.error) && ttype == old(ttype))
      ensures outcome.Pass? ==> Valid() && GetType() == Ok(typeString.value)
    {
      var code := TTypeFromString(typeString);
      if code.Err? {
        return Fail(code.error);
      }
      TypeNameRoundTrip(typeString.value);
      ttype := code.value;
      outcome := Pass;
    }

    /** getFullSQLType: null without an SQL type, otherwise the type followed
        by the arguments of the case table. */
    function GetFullSqlType(): (r: Option<string>)
      ensures r.None? <==> sql.sqlType.None?
      ensures r.Some? ==>
        && r.value == sql.sqlType.value + ArgumentsText(ExpectedArguments(sql))
        && ParseArguments(r.value[|sql.sqlType.value|..]) == Some(ExpectedArguments(sql))
    {
      if sql.sqlType.None? then None
      else
        FullSqlTypeFollowsTable(sql);
        FullSqlType(sql)
    }
  }
}
