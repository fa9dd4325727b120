/** The SQL-sink attributes a field carries (ThriftField.Sql and
    GoodwillSchemaField.Sql hold the same four nullable parts), the guard both
    field constructors apply to them, and the pretty-printer getFullSQLType,
    which both classes implement with the same case table. */
module SqlAttributes {

  import opened Base
  import opened Decimal

  /** SQL type (varchar, decimal, ...), length, scale and precision, each possibly null. */
  datatype Sql = Sql(
    sqlType: Option<string>,
    length: Option<Int32>,
    scale: Option<Int32>,
    precision: Option<Int32>)

  /** The constructors' guard: a null or "string" SQL type carries neither a
      scale nor a precision. */
  predicate ScaleAndPrecisionAllowed(sqlType: Option<string>, scale: Option<Int32>, precision: Option<Int32>)
    ensures scale.None? && precision.None? ==> ScaleAndPrecisionAllowed(sqlType, scale, precision)
    ensures sqlType.Some? && sqlType.value != "string" ==> ScaleAndPrecisionAllowed(sqlType, scale, precision)
    ensures sqlType == Some("string") && scale.Some? ==> !ScaleAndPrecisionAllowed(sqlType, scale, precision)
    ensures sqlType.None? && precision.Some? ==> !ScaleAndPrecisionAllowed(sqlType, scale, precision)
  {
    !((sqlType.None? || sqlType.value == "string") && (scale.Some? || precision.Some?))
  }

  predicate IsDecimalType(t: string) {
    t == "decimal" || t == "numeric"
  }

  predicate IsVarcharType(t: string) {
    t == "nvarchar" || t == "varchar"
  }

  /** getFullSQLType: null when there is no SQL type, otherwise the type,
      followed by its arguments in parentheses for the types that take them. */
  function FullSqlType(sql: Sql): (r: Option<string>)
    ensures r.None? <==> sql.sqlType.None?
    ensures r.Some? ==> sql.sqlType.value <= r.value
  {
    if sql.sqlType.None? then None
    else
      var t := sql.sqlType.value;
      var fullSqlType: Option<string> :=
        if IsDecimalType(t) then
          if sql.precision.Some? then
            if sql.scale.Some? then
              Some(t + "(" + IntToString(sql.precision.value) + ", " + IntToString(sql.scale.value) + ")")
            else
              Some(t + "(" + IntToString(sql.precision.value) + ")")
          else None
        else if IsVarcharType(t) then
          if sql.length.Some? then Some(t + "(" + IntToString(sql.length.value) + ")") else None
        else None;
      Some(fullSqlType.GetOr(t))
  }

  /** The arguments a rendered SQL type shows after its name. */
  datatype Arguments = NoArguments | OneArgument(a: int) | TwoArguments(a: int, b: int)

  /** The case table of getFullSQLType, one line per case: which arguments
      the rendering is meant to show. */
  function ExpectedArguments(sql: Sql): (args: Arguments)
    requires sql.sqlType.Some?
    ensures args.TwoArguments? ==> IsDecimalType(sql.sqlType.value)
    ensures !IsDecimalType(sql.sqlType.value) && !IsVarcharType(sql.sqlType.value) ==> args == NoArguments
    ensures IsDecimalType(sql.sqlType.value) && sql.precision.None? ==> args == NoArguments
    ensures IsVarcharType(sql.sqlType.value) ==> args == (if sql.length.Some? then OneArgument(sql.length.value) else NoArguments)
  {
    var t := sql.sqlType.value;
    if IsDecimalType(t) && sql.precision.Some? && sql.scale.Some? then
      TwoArguments(sql.precision.value, sql.scale.value)
    else if IsDecimalType(t) && sql.precision.Some? then
      OneArgument(sql.precision.value)
    else if IsVarcharType(t) && sql.length.Some? then
      OneArgument(sql.length.value)
    else
      NoArguments
  }

  /** Position of the first c in s, or |s| when there is none. */
  function IndexOf(s: string, c: char): (k: nat)
    ensures k <= |s|
    ensures k < |s| ==> s[k] == c
    ensures forall i :: 0 <= i < k ==> s[i] != c
  {
    if s == [] then 0
    else if s[0] == c then 0
    else 1 + IndexOf(s[1..], c)
  }

  /** Reads what follows the type name in a rendering: nothing, "(a)" or "(a, b)". */
  function ParseArguments(s: string): Option<Arguments> {
    if s == [] then Some(NoArguments)
    else if |s| >= 2 && s[0] == '(' && s[|s| - 1] == ')' then
      var inner := s[1..|s| - 1];
      var k := IndexOf(inner, ',');
      if k == |inner| then
        match ParseInt(inner)
        case Some(a) => Some(OneArgument(a))
        case None => None
      else if k + 1 < |inner| && inner[k + 1] == ' ' then
        match (ParseInt(inner[..k]), ParseInt(inner[k + 2..]))
        case (Some(a), Some(b)) => Some(TwoArguments(a, b))
        case _ => None
      else None
    else None
  }

  lemma OneArgumentParses(n: int)
    ensures ParseArguments("(" + IntToString(n) + ")") == Some(OneArgument(n))
  {
    var d := IntToString(n);
    var s := "(" + d + ")";
    assert s[1..|s| - 1] == d;
    assert IndexOf(d, ',') == |d|;
    IntToStringRoundTrip(n);
  }

  lemma TwoArgumentsParse(m: int, n: int)
    ensures ParseArguments("(" + IntToString(m) + ", " + IntToString(n) + ")") == Some(TwoArguments(m, n))
  {
    IntToStringRoundTrip(m);
    IntToStringRoundTrip(n);
    TwoTextsParse(IntToString(m), IntToString(n));
  }

  /** "(a, b)" parses to the two integers a and b read as, when a has no comma. */
  lemma TwoTextsParse(left: string, right: string)
    requires forall i :: 0 <= i < |left| ==> left[i] != ','
    requires ParseInt(left).Some? && ParseInt(right).Some?
    ensures ParseArguments("(" + left + ", " + right + ")") == Some(TwoArguments(ParseInt(left).value, ParseInt(right).value))
  {
    JoinAtComma(left, right);
  }

  /** Joining two comma-free texts with ", " and brackets: the comma found
      first is the one joining them. */
  lemma JoinAtComma(left: string, right: string)
    requires forall i :: 0 <= i < |left| ==> left[i] != ','
    ensures var s := "(" + left + ", " + right + ")";
      var inner := s[1..|s| - 1];
      && inner == left + ", " + right
      && IndexOf(inner, ',') == |left|
      && inner[..|left|] == left
      && inner[|left| + 2..] == right
  {
    var s := "(" + left + ", " + right + ")";
    var inner := s[1..|s| - 1];
    assert inner == left + ", " + right;
    assert inner[|left|] == ',';
  }

  /** How getFullSQLType writes the arguments after the type name. */
  function ArgumentsText(args: Arguments): string {
    match args
    case NoArguments => ""
    case OneArgument(n) => "(" + IntToString(n) + ")"
    case TwoArguments(m, n) => "(" + IntToString(m) + ", " + IntToString(n) + ")"
  }

  /** ParseArguments reads back only what getFullSQLType writes: each parsed
      result has exactly one text. */
  lemma ParseArgumentsCanonical(s: string)
    ensures ParseArguments(s).Some? ==> s == ArgumentsText(ParseArguments(s).value)
  {
    if s != [] && |s| >= 2 && s[0] == '(' && s[|s| - 1] == ')' {
      var inner := s[1..|s| - 1];
      var k := IndexOf(inner, ',');
      if k == |inner| && ParseInt(inner).Some? {
        var n := ParseInt(inner).value;
        assert ParseArguments(s) == Some(OneArgument(n));
        ParseIntCanonical(inner);
        assert s == "(" + inner + ")";
      } else if k < |inner| && k + 1 < |inner| && inner[k + 1] == ' '
             && ParseInt(inner[..k]).Some? && ParseInt(inner[k + 2..]).Some? {
        var m, n := ParseInt(inner[..k]).value, ParseInt(inner[k + 2..]).value;
        assert ParseArguments(s) == Some(TwoArguments(m, n));
        TwoArgumentsCanonical(s, k);
      }
    }
  }

  /** Two parsed integers around ", " have exactly the text IntToString writes. */
  lemma TwoArgumentsCanonical(s: string, k: nat)
    requires |s| >= 2 && s[0] == '(' && s[|s| - 1] == ')'
    requires var inner := s[1..|s| - 1];
      && k + 1 < |inner| && inner[k] == ',' && inner[k + 1] == ' '
      && ParseInt(inner[..k]).Some? && ParseInt(inner[k + 2..]).Some?
    ensures var inner := s[1..|s| - 1];
      s == "(" + IntToString(ParseInt(inner[..k]).value) + ", " + IntToString(ParseInt(inner[k + 2..]).value) + ")"
  {
    var inner := s[1..|s| - 1];
    ParseIntCanonical(inner[..k]);
    ParseIntCanonical(inner[k + 2..]);
    SplitBracketed(s, inner, k);
  }

  /** A bracketed text with ", " at k inside is the two sides rejoined. */
  lemma SplitBracketed(s: string, inner: string, k: nat)
    requires |s| >= 2 && s[0] == '(' && s[|s| - 1] == ')' && inner == s[1..|s| - 1]
    requires k + 1 < |inner| && inner[k] == ',' && inner[k + 1] == ' '
    ensures s == "(" + inner[..k] + ", " + inner[k + 2..] + ")"
  {
    assert inner == inner[..k] + inner[k..k + 2] + inner[k + 2..];
    assert s == "(" + inner + ")";
  }

  /** The rendering is the SQL type followed by exactly the arguments the case
      table names, and they can be read back from it. */
  lemma FullSqlTypeFollowsTable(sql: Sql)
    requires sql.sqlType.Some?
    ensures var r := FullSqlType(sql).value;
      && r == sql.sqlType.value + ArgumentsText(ExpectedArguments(sql))
      && ParseArguments(r[|sql.sqlType.value|..]) == Some(ExpectedArguments(sql))
  {
    var t := sql.sqlType.value;
    var r := FullSqlType(sql).value;
    match ExpectedArguments(sql)
    case TwoArguments(p, s) =>
      assert r == t + ("(" + IntToString(p) + ", " + IntToString(s) + ")");
      assert r[|t|..] == "(" + IntToString(p) + ", " + IntToString(s) + ")";
      TwoArgumentsParse(p, s);
    case OneArgument(a) =>
      assert r == t + ("(" + IntToString(a) + ")");
      assert r[|t|..] == "(" + IntToString(a) + ")";
      OneArgumentParses(a);
    case NoArguments =>
      assert r == t;
      assert r[|t|..] == [];
  }
}
