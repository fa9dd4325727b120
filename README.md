# goodwill-access in Dafny

A model of the client side of Goodwill, a registry of schemas reached over HTTP:

- **`SchemaCache`** (`CachingGoodwillAccessor`): a read-through cache of the registry's schemata, keyed by schema name.
  - A refresh fetches the whole list and, on success, replaces the cache with a map built from it. In that map a later schema with the same name replaces an earlier one.
  - A null list (the registry is down) or a failed fetch keeps the old cache, and the caller sees no error.
  - `getSchema` serves a hit from memory. On a miss it refreshes exactly once and looks again.
  - `getSchemata` lists the cached schemata without fetching.
  - The class holds the map and a ghost count of fetches. The result of the remote fetch is an input of every operation that may fetch.
- **`ThriftTypes`** (`ThriftType`): a named Thrift type whose fields sit in a table keyed by position. Adding a field replaces whatever was at its position, and any position is accepted.
- **`ThriftFields`** (`ThriftField`): a Thrift field.
  - The seven type names (`string`, `i64`, `i32`, `i16`, `i8`, `bool`, `double`) map to Thrift `TType` codes and back. Anything else is rejected in both directions.
  - The constructor checks its arguments.
  - `setType` changes the stored code.
- **`GoodwillSchemaFields`** (`GoodwillSchemaField`): an immutable schema field.
  - It makes the same SQL-attribute check as `ThriftField`.
  - Its JSON-creator constructor treats a missing `sql` object as four null SQL parts.
  - `toMap` and `Sql.toMap` flatten it, with nulls written as `""`.
- **`SqlAttributes`**: the four nullable SQL parts, the "strings cannot have a scale or precision" guard, and the `getFullSQLType` case table. Both field classes share these.
- **`Decimal`**: Java's rendering of an `Integer` in string concatenation, with a parser that undoes it. The parser is used to show that `getFullSQLType` prints exactly the arguments its table names.
- **`Base`**: nullable values (`Option`), exceptions (`Result`, `Outcome`, `Error`), and the widths of Java's `int`, `short` and `byte`.

Java exceptions become `Err(IllegalArgument(message))` with the source's message. A null dereference becomes `Err(NullPointer)`: `ttypeFromString(null)` fails on `type.equals` with a NullPointerException, not with the IllegalArgumentException it throws for an unknown name.

The model follows what the code does, including these points where its behaviour is easy to misread:
- A refresh clears the live map and then copies the new one in. Readers of `getSchema` do not take the monitor. The model treats the swap as one atomic step.
- Duplicate names in one fetch are resolved last-one-wins.
- `close()` does not stop the background task.

## Model

| member | source | states |
|---|---|---|
| `SchemaCache.LastNamed` | src/main/java/com/ning/metrics/goodwill/access/CachingGoodwillAccessor.java:71-73 | Reference definition: None exactly when no schema in the list has the name; otherwise a schema of the list with that name, after which no schema has it |
| `SchemaCache.SchemaIndexContents` | src/main/java/com/ning/metrics/goodwill/access/CachingGoodwillAccessor.java:70-73 | The map built by the loop holds a name exactly when some fetched schema has it, and holds there the last fetched schema of that name |
| `SchemaCache.SchemaIndex` | src/main/java/com/ning/metrics/goodwill/access/CachingGoodwillAccessor.java:70-73 | The map the loop builds files every schema under its own name |
| `SchemaCache.SchemaIndexKeys` | src/main/java/com/ning/metrics/goodwill/access/CachingGoodwillAccessor.java:70-73 | The keys of the built map are exactly the names in the fetched list |
| `SchemaCache.Refreshed` | src/main/java/com/ning/metrics/goodwill/access/CachingGoodwillAccessor.java:60-87 | The cache after one refresh: unchanged after a null list or a failure; after a fetched list, its keys are exactly the list's names |
| `SchemaCache.RefreshIdempotent` | src/main/java/com/ning/metrics/goodwill/access/CachingGoodwillAccessor.java:60-87 | Refreshing twice with the same fetch result leaves the same cache as refreshing once |
| `SchemaCache.RefreshForgetsOldCache` | src/main/java/com/ning/metrics/goodwill/access/CachingGoodwillAccessor.java:75-78 | After a successful refresh the cache does not depend on its old contents: nothing of the old map survives clear and putAll |
| `SchemaCache.CachingGoodwillAccessor.constructor` | src/main/java/com/ning/metrics/goodwill/access/CachingGoodwillAccessor.java:39-53 | A successful construction, which needs a positive refresh interval: the cache starts empty with no fetch made, and keeps host, port and refresh interval |
| `SchemaCache.CachingGoodwillAccessor.Create` | src/main/java/com/ning/metrics/goodwill/access/CachingGoodwillAccessor.java:39-53 | Succeeds exactly when the refresh interval is positive. Otherwise it fails with the IllegalArgumentException that scheduleWithFixedDelay throws for a delay that is not positive, and makes no accessor. On success the cache is empty, no fetch has been made, and host, port and interval are kept |
| `SchemaCache.CachingGoodwillAccessor.WithDefaultTimeout` | src/main/java/com/ning/metrics/goodwill/access/CachingGoodwillAccessor.java:28-37 | The same, with the default refresh interval of 90 seconds |
| `SchemaCache.CachingGoodwillAccessor.RefreshSchemataCache` | src/main/java/com/ning/metrics/goodwill/access/CachingGoodwillAccessor.java:60-87 | Exactly one fetch. A null list or a failure leaves the cache unchanged and returns normally. A fetched list leaves exactly its names as keys, each mapped to the last schema of that name. The names-match invariant is kept |
| `SchemaCache.CachingGoodwillAccessor.GetSchema` | src/main/java/com/ning/metrics/goodwill/access/CachingGoodwillAccessor.java:96-105 | A cached name returns its schema with no fetch and no change. A missing name causes exactly one refresh, then returns the refreshed cache's entry or null. A returned schema carries the asked name |
| `SchemaCache.CachingGoodwillAccessor.GetSchemata` | src/main/java/com/ning/metrics/goodwill/access/CachingGoodwillAccessor.java:107-110 | Returns each cached schema exactly once and nothing else. It changes nothing and fetches nothing |
| `SchemaCache.CachingRegistrarScenario` | src/test/java/com/ning/metrics/goodwill/access/CachingGoodwillAccessorTest.java:130-172 | The test's run: unknown names miss and cost one fetch each; the cached "Schema" is served without a fetch, also while the registry answers 500; a new name during the outage returns null after one fetch |
| `ThriftTypes.LastAtPosition` | src/main/java/com/ning/metrics/goodwill/access/ThriftType.java:90-95 | Reference definition: None exactly when no item has the position; otherwise an item at that position, after which no item has it |
| `ThriftTypes.FieldTable` | src/main/java/com/ning/metrics/goodwill/access/ThriftType.java:90-95 | The table built by adding the items in order holds every field at its own position |
| `ThriftTypes.FieldTableLookup` | src/main/java/com/ning/metrics/goodwill/access/ThriftType.java:90-95 | The table built by adding the items in order holds, at each position, the last item with that position, and nothing where no item has it |
| `ThriftTypes.FieldTableSize` | src/main/java/com/ning/metrics/goodwill/access/ThriftType.java:90-95 | The table's keys are exactly the positions in the list, so it has as many entries as there are distinct positions, at most the list's length |
| `ThriftTypes.KeyedValuesCount` | src/main/java/com/ning/metrics/goodwill/access/ThriftType.java:98-101 | A table whose every field sits at its own position has as many distinct fields as positions |
| `ThriftTypes.ThriftType.constructor` | src/main/java/com/ning/metrics/goodwill/access/ThriftType.java:56-60 | Keeps the name, which getName returns. Afterwards getFieldByPosition(p) is the last item at p, or null when no item has p |
| `ThriftTypes.ThriftType.AddThriftField` | src/main/java/com/ning/metrics/goodwill/access/ThriftType.java:74-77 | With no check on the position, stores the field at its position, replacing what was there. Every other position is unchanged |
| `ThriftTypes.ThriftType.SetSchema` | src/main/java/com/ning/metrics/goodwill/access/ThriftType.java:90-95 | The loop adds the items in list order: the new table is the old one overridden by the items' table |
| `ThriftTypes.ThriftType.GetSchema` | src/main/java/com/ning/metrics/goodwill/access/ThriftType.java:98-101 | Exactly the stored fields, one per stored position |
| `ThriftTypes.ThriftType.GetFieldByPosition` | src/main/java/com/ning/metrics/goodwill/access/ThriftType.java:115-118 | The field stored at the position, or null when there is none |
| `ThriftFields.TTypeFromString` | src/main/java/com/ning/metrics/goodwill/access/ThriftField.java:135-161 | Accepts exactly the seven names, giving one of the seven codes. Any other string raises IllegalArgumentException "<s> not a valid TType". Null raises NullPointerException |
| `ThriftFields.TypeStringFromTType` | src/main/java/com/ning/metrics/goodwill/access/ThriftField.java:169-189 | Accepts exactly the seven codes, giving one of the seven names. Any other byte raises IllegalArgumentException with its decimal value |
| `ThriftFields.TypeNameRoundTrip` | src/main/java/com/ning/metrics/goodwill/access/ThriftField.java:105 | For each of the seven names, typeStringfromTType(ttypeFromString(s)) == s |
| `ThriftFields.TypeCodeRoundTrip` | src/main/java/com/ning/metrics/goodwill/access/ThriftField.java:171-188 | For each of the seven codes, ttypeFromString(typeStringfromTType(b)) == b, so the codes are pairwise distinct |
| `ThriftFields.TypeCodesDistinct` | src/main/java/com/ning/metrics/goodwill/access/ThriftField.java:67-74 | Seven distinct names and seven distinct codes |
| `ThriftFields.CheckFieldArguments` | src/main/java/com/ning/metrics/goodwill/access/ThriftField.java:100-114 | Succeeds exactly when the name is non-null, the type is one of the seven names, the position is non-null, and no scale or precision goes with a null or "string" SQL type. Otherwise it fails with the first failing check's exception, in source order |
| `ThriftFields.ThriftField.constructor` | src/main/java/com/ning/metrics/goodwill/access/ThriftField.java:103-118 | Stores the given parts unchanged |
| `ThriftFields.ThriftField.Create` | src/main/java/com/ning/metrics/goodwill/access/ThriftField.java:89-120 | Throws exactly what the checks throw. Otherwise it stores name, position, description and the four SQL parts unchanged in a never-null Sql, and getType returns the given type name |
| `ThriftFields.ThriftField.GetType` | src/main/java/com/ning/metrics/goodwill/access/ThriftField.java:241-244 | On a valid field, a type name whose code is the stored code |
| `ThriftFields.ThriftField.SetType` | src/main/java/com/ning/metrics/goodwill/access/ThriftField.java:253-256 | Stores the code ttypeFromString gives, and throws what it throws, with the old code left in place. After success getType returns the name |
| `ThriftFields.ThriftField.GetFullSqlType` | src/main/java/com/ning/metrics/goodwill/access/ThriftField.java:335-365 | Null exactly without an SQL type. Otherwise the SQL type followed by exactly the text of the case table's arguments, which parses back to those arguments |
| `SqlAttributes.ScaleAndPrecisionAllowed` | src/main/java/com/ning/metrics/goodwill/access/ThriftField.java:112-114 | The guard both constructors apply. Anything passes without a scale or precision, and any SQL type other than null and "string" accepts them. A "string" type with a scale, or a null type with a precision, is refused |
| `SqlAttributes.ExpectedArguments` | src/main/java/com/ning/metrics/goodwill/access/ThriftField.java:342-362 | The case table. Two arguments only for decimal/numeric. No arguments for a type outside decimal, numeric, varchar and nvarchar, and none for decimal/numeric without a precision, even with a scale. varchar/nvarchar show their length exactly when it is set |
| `SqlAttributes.FullSqlType` | src/main/java/com/ning/metrics/goodwill/access/ThriftField.java:337-364 | Null exactly when the SQL type is null; otherwise a string starting with the SQL type |
| `SqlAttributes.FullSqlTypeFollowsTable` | src/main/java/com/ning/metrics/goodwill/access/ThriftField.java:342-362 | After the type come "(p, s)" for decimal/numeric with precision and scale, "(p)" for precision only, "(l)" for varchar/nvarchar with a length, and nothing otherwise; the result is exactly the type followed by that text, and the numbers parse back to the stored ones |
| `SqlAttributes.OneArgumentParses` | src/main/java/com/ning/metrics/goodwill/access/ThriftField.java:348 | A rendering "(n)" reads back as the one argument n |
| `SqlAttributes.TwoArgumentsParse` | src/main/java/com/ning/metrics/goodwill/access/ThriftField.java:345 | A rendering "(p, s)" reads back as the two arguments p and s |
| `Decimal.NatToString` | src/main/java/com/ning/metrics/goodwill/access/ThriftField.java:355 | Integer concatenation renders a non-negative value as a non-empty run of decimal digits, starting with 0 only for zero itself |
| `Decimal.IntToString` | src/main/java/com/ning/metrics/goodwill/access/ThriftField.java:187 | A value renders as digits with a leading minus sign exactly when it is negative |
| `Decimal.NatToStringRoundTrip` | src/main/java/com/ning/metrics/goodwill/access/ThriftField.java:355 | The digits of n read back as n |
| `Decimal.IntToStringRoundTrip` | src/main/java/com/ning/metrics/goodwill/access/ThriftField.java:345 | The rendering of any integer parses back to it |
| `Decimal.ParseIntCanonical` | src/main/java/com/ning/metrics/goodwill/access/ThriftField.java:345 | The parser accepts only what Integer.toString writes (no leading zero, no "-0"), so a parsed value fixes its text |
| `SqlAttributes.ParseArgumentsCanonical` | src/main/java/com/ning/metrics/goodwill/access/ThriftField.java:342-362 | A parsed argument list has exactly one text: "" for none, "(n)" for one and "(p, s)" for two, with the numbers as Integer.toString writes them |
| `GoodwillSchemaFields.New` | src/main/java/com/ning/metrics/goodwill/access/GoodwillSchemaField.java:108-132 | Succeeds exactly when the name is non-null and no scale or precision goes with a null or "string" SQL type. Otherwise it throws the source's message for the first failing check. On success every part is stored unchanged |
| `GoodwillSchemaFields.FromJson` | src/main/java/com/ning/metrics/goodwill/access/GoodwillSchemaField.java:85-94 | A null sql behaves exactly like the manual constructor with four null SQL parts. A present sql gives exactly the manual constructor's result on its four parts, refusals and their messages included |
| `GoodwillSchemaFields.FullSqlTypeOf` | src/main/java/com/ning/metrics/goodwill/access/GoodwillSchemaField.java:294-324 | The same table as ThriftField: null exactly without an SQL type, otherwise the type followed by exactly the text of the tabled arguments, which parses back |
| `GoodwillSchemaFields.SqlToMap` | src/main/java/com/ning/metrics/goodwill/access/GoodwillSchemaField.java:183-191 | Always has exactly the keys type, length, scale and precision. Each null part appears as "", and each present part as its stored value |
| `GoodwillSchemaFields.SqlToMapInjective` | src/main/java/com/ning/metrics/goodwill/access/GoodwillSchemaField.java:183-191 | Two Sql values flatten alike exactly when their lengths, scales and precisions agree (null included) and their types agree once null is read as "" |
| `GoodwillSchemaFields.ToMap` | src/main/java/com/ning/metrics/goodwill/access/GoodwillSchemaField.java:146-155 | Always has exactly the keys name, type, position, description and sql. They hold the name, the field type, the position, the description (null as "") and the Sql object |
| `GoodwillSchemaFields.ToMapInjective` | src/main/java/com/ning/metrics/goodwill/access/GoodwillSchemaField.java:146-155 | Two fields flatten alike exactly when they agree on name, type, position and Sql, and their descriptions agree once null is read as "" |
| `GoodwillSchemaFields.VarcharAcceptsScaleAndPrecision` | src/test/java/com/ning/metrics/goodwill/access/ThriftFieldTest.java:53-54 | A varchar field with length 255, scale 12 and precision 12 is accepted and keeps them |

## Left out

- GoodwillAccessor.java is not part of this model: it is the asynchronous HTTP client. Only its observable result is modelled, as the `FetchResult` input of a refresh: a list, a null list (a status other than 200), an ExecutionException, or an interruption. When it cannot even send the request it returns a null future, and refreshSchemataCache then throws a NullPointerException. That case is not modelled.
- Background scheduling (`scheduleWithFixedDelay`, the immediate first run and the fixed delay), the cache monitor and ConcurrentHashMap are concurrency and wall-clock time. Each refresh is one atomic call of `RefreshSchemataCache`. A reader that sees the map between `clear` and `putAll` is not modelled.
- SchemaCache.CachingGoodwillAccessor.constructor: does not fetch. The refresh it schedules at once is a separate call of `RefreshSchemataCache` in the model. The constructor requires a positive interval. `Create` models the three-argument constructor as a whole, including the IllegalArgumentException that scheduling throws for an interval that is not positive. The exception's missing message is written as "".
- Restoring the thread's interrupt flag after an InterruptedException is thread state, not cache state, and is not modelled.
- `close()` only closes the HTTP client, which is outside the model.
- Jackson's `decode`, `toJSON` and the JSON-based `toString` methods are foreign library calls.
- `SchemaFieldType.createSchemaField`, the upper-casing of the field type, and `getType`/`getName`/`getId` through `SchemaField` come from a library that is not shown. The field type is kept as the given string. The `GoodwillSchemaField(SchemaField)` constructor is left out for the same reason.
- Apache Thrift's `TType` byte values are used as constants. The proofs rely only on the seven being distinct.
- The no-argument Jackson constructors of `ThriftField` and `ThriftType` are left out. They leave `sql` null, so `getFullSQLType` would throw. In the model every field has a non-null `Sql`, which makes the `getSql() == null` branch of `toMap` dead.
- `ThriftType.setSinkAddInfo` is an unchecked passthrough setter.
- `GoodwillSchema` and the `Accessor` superclass are not part of this model. A schema is a name with its fields.
- Null schema names, null list elements and null lookup keys become NullPointerExceptions in the Java maps. The model's names and references are non-null.
- ThriftTypes.ThriftType.GetSchema: returns a set rather than Java's collection view. Since every field is stored at its own position, the values are distinct and the set has one element per stored position.
- The getters `getName`, `getPosition`, `getSql` and `getDescription` of both field classes are the model's immutable fields. `ThriftType.getName` is its `name` constant.
