# WPDB Table Builder — a Dafny model

This project models the table builder of Pink-Crab's WPDB-Table-Builder, a
WordPress library that turns a fluent PHP description of a database table into
the `CREATE TABLE` / `DROP TABLE` text handed to WordPress (`dbDelta`, `wpdb`).
It covers the two generations of the library found in the repository, and the
admin-page validator that ships beside them.

* **The schema engine.** `Schema` holds a table name, a PHP array of `Column`s
  keyed by name, `Index`es and `Foreign_Key`s, all built by fluent setters.
  `DB_Delta_Translator` turns a schema into SQL fragments.
  `DB_Delta_Validator` checks it. `DB_Delta_Engine` stores the schema, asks the
  validator whether to go on, and composes the statement. Its exceptions are
  modelled too.
* **The array-based builder.** `Table_Schema` keeps columns as PHP arrays of
  properties and writes each setter into the last-declared column.
  `Table_Index` describes simple and foreign indexes. Two builders render a
  schema:
  - `src/Builders/DB_Delta.php`, modelled as `DeltaBuilder`;
  - the older `__DB_Delta.php`, which also validates and can drop, modelled as
    `LegacyDelta`.
* **`Page_Validator`.** It checks an admin page's key, menu title and view
  settings, and formats the messages it logged into one report.

## How the model is built

* **PHP semantics, shared.**
  - PHP's ordered keyed arrays are sequences of key/value pairs.
    `PhpArrays.Put` is `$a[$k] = $v`: it overwrites in place, otherwise it
    appends.
  - `PhpArrays.ArrayMerge` is `array_merge`: integer keys are renumbered and
    string keys overwrite.
  - `PhpStrings` gives `strtoupper`, `implode`, `%d` and PHP's `empty()` on
    strings, where both `""` and `"0"` are empty.
* **Objects the source updates in place are classes.** This covers `Column`,
  `Index`, `Foreign_Key`, `Schema`, the validator, the engine, `Table_Index`,
  `Table_Schema`, both builders and `Page_Validator`.
  - Each class has a `State()` snapshot.
  - Each setter is a method whose postcondition gives the new state as a
    function of the old one.
* **Pure computations are functions**, with lemmas relating them. This covers
  the translator, rendering and validation messages.
  - Loops in the source, such as `validate_indexes` and the `foreach` that
    looks for the first `ON UPDATE`, are methods proved against those
    functions.
* **Failures are values.** The source throws exceptions and PHP raises
  `TypeError`s, for example when a `: string` getter returns an unset
  property. Both become `Result`/`Option` values or explicit outcome
  constructors.
* **Defects are modelled as written, beside corrected definitions.** Where the
  code as written misbehaves, the classes model the code as written. A
  corrected (`Intended…`) definition sits beside it, with its intended
  property proved. Both are listed under "## Findings".

## Model

| member | source | states |
|---|---|---|
| PhpStrings.Upper | src/Engines/WPDB_DB_Delta/DB_Delta_Translator.php:82 | `strtoupper` keeps the length and maps every character through the ASCII upper-case map |
| PhpStrings.UpperIsIdempotent | src/Engines/WPDB_DB_Delta/DB_Delta_Translator.php:82 | an upper-cased string has no lower-case ASCII letter left, so upper-casing twice is upper-casing once |
| PhpStrings.Join | src/Engines/WPDB_DB_Delta/DB_Delta_Engine.php:213-219 | `implode` of no item is `""` and of one item is that item |
| PhpStrings.JoinSnoc | src/Engines/WPDB_DB_Delta/DB_Delta_Engine.php:213-219 | adding an item to a non-empty list adds the separator and the item at the end of the text |
| PhpStrings.JoinAppend | src/Engines/WPDB_DB_Delta/DB_Delta_Engine.php:213-219 | the implode of two non-empty lists is their implodes joined by one separator |
| PhpStrings.NatToString | src/Exception/WPDB_DB_Delta/WPDB_Validator_Exception.php:79 | `%d` of a count is a non-empty run of digits with no leading zero |
| PhpStrings.NatToStringInjective | src/Exception/WPDB_DB_Delta/WPDB_Validator_Exception.php:79 | different counts print differently |
| PhpStrings.IntToString | src/Engines/WPDB_DB_Delta/DB_Delta_Translator.php:109 | `%d` of any integer is digits, preceded by `-` exactly for a negative one |
| PhpArrays.Put | src/Schema.php:84 | `$a[$k] = $v` overwrites the existing entry at its position, otherwise appends `($k, $v)` |
| PhpArrays.PutKeys | src/Schema.php:84 | assignment keeps the key order, adds a new key last, and keeps keys distinct |
| PhpArrays.GetAfterPut | src/Schema.php:84 | reading the assigned key gives the new value and every other key reads as before |
| PhpArrays.MergeAllValues | src/Engines/WPDB_DB_Delta/DB_Delta_Translator.php:67-71 | `array_merge` keeps every value, in order, when no string key of the right side is already present |
| PhpArrays.ArrayMergeValues | src/Engines/WPDB_DB_Delta/DB_Delta_Translator.php:67-71 | `array_merge( $a, $b )`'s values are `$a`'s then `$b`'s under that condition |
| PhpArrays.MergeAllLength | src/Engines/WPDB_DB_Delta/DB_Delta_Translator.php:67-71 | a merge is never longer than the two sides together, and strictly shorter when a string key repeats |
| PhpArrays.MergeAllNames | src/Engines/WPDB_DB_Delta/DB_Delta_Translator.php:67-71 | the merge's string keys are distinct and each comes from one of the two sides |
| PhpArrays.MergeAllKeepsNames | src/Engines/WPDB_DB_Delta/DB_Delta_Translator.php:67-71 | every string key of either side survives the merge |
| ColumnModel.ExportForgetsOnlyAutoIncrement | src/Column.php:177-187 | `export()` omits `auto_increment` and nothing else: changing it leaves the export alone, and export plus `auto_increment` determine the column |
| ColumnModel.TypedWithLength | src/Column_Types.php:37-103 | a length shortcut sets the type, sets the length only for a truthy length, and changes nothing else |
| ColumnModel.TypedWithDefault | src/Column_Types.php:112-133 | a default shortcut sets the type, sets the default only for a truthy default, and changes nothing else |
| ColumnModel.After | src/Column.php:112-170 | no setter or shortcut changes the column's name or `auto_increment` |
| ColumnModel.AfterAll | src/Column.php:112-170 | a chain of calls keeps the name and `auto_increment` |
| ColumnModel.ShortcutTypes | src/Column_Types.php:37-165 | a chain containing any type-setting call leaves the column typed |
| ColumnModel.TypeSticks | src/Column.php:112-115 | once a column has a type, no later call removes it |
| ColumnModel.Column.constructor | src/Column.php:102-104 | a new column has only its name set |
| ColumnModel.Column.Type | src/Column.php:112-115 | sets the type only and returns the same column |
| ColumnModel.Column.Length | src/Column.php:123-126 | sets the length only and returns the same column |
| ColumnModel.Column.Nullable | src/Column.php:134-137 | sets `nullable` only and returns the same column |
| ColumnModel.Column.Default | src/Column.php:145-148 | sets the default only and returns the same column |
| ColumnModel.Column.Unsigned | src/Column.php:156-159 | sets `unsigned` only and returns the same column |
| ColumnModel.Column.Unique | src/Column.php:167-170 | sets `unique` only and returns the same column |
| ColumnModel.Column.Export | src/Column.php:177-187 | the exported record is the state without `auto_increment` |
| ColumnModel.Column.GetName | src/Column.php:194-196 | the name given to the constructor |
| ColumnModel.Column.SetTypeWithLength | src/Column_Types.php:38-41 | type, then length when one is given |
| ColumnModel.Column.SetTypeWithDefault | src/Column_Types.php:113-116 | type, then default when one is given |
| ColumnModel.Column.Varchar | src/Column_Types.php:37-43 | type `varchar`, length when truthy |
| ColumnModel.Column.Text | src/Column_Types.php:52-58 | type `text`, length when truthy |
| ColumnModel.Column.Int | src/Column_Types.php:67-73 | type `int`, length when truthy |
| ColumnModel.Column.Float | src/Column_Types.php:82-88 | type `float`, length when truthy |
| ColumnModel.Column.Double | src/Column_Types.php:97-103 | type `double`, length when truthy |
| ColumnModel.Column.Datetime | src/Column_Types.php:112-118 | type `datetime`, default when truthy |
| ColumnModel.Column.Timestamp | src/Column_Types.php:127-133 | type `timestamp`, default when truthy |
| ColumnModel.Column.UnsignedInt | src/Column_Types.php:142-149 | type `int`, unsigned, length when truthy |
| ColumnModel.Column.UnsignedMedium | src/Column_Types.php:158-165 | type `mediumint`, unsigned, length when truthy |
| ColumnModel.Column.Apply | src/Column.php:112-170 | running one fluent call moves the state as `After` says |
| ColumnModel.Column.ApplyAll | src/Column.php:112-170 | running a chain left to right moves the state as `AfterAll` says |
| IndexModel.DefaultKeyname | src/Index.php:71 | the given keyname, otherwise `ix_` followed by the column |
| IndexModel.IndexType | src/Index.php:176-186 | `primary` wins over `unique` over `fulltext`; `""` exactly when none is set |
| IndexModel.Index.constructor | src/Index.php:70-73 | keyname by the default rule, the column, and no flag set |
| IndexModel.Index.Primary | src/Index.php:81-84 | sets `primary` only |
| IndexModel.Index.Unique | src/Index.php:93-96 | sets `unique` only |
| IndexModel.Index.FullText | src/Index.php:105-108 | sets `full_text` only |
| IndexModel.Index.GetKeyname | src/Index.php:115-117 | the keyname |
| IndexModel.Index.Export | src/Index.php:124-132 | keyname, column and the three flags |
| IndexModel.Index.GetColumn | src/Index.php:140-142 | the column |
| IndexModel.Index.IsPrimary | src/Index.php:149-151 | the `primary` flag |
| IndexModel.Index.IsUnique | src/Index.php:158-160 | the `unique` flag |
| IndexModel.Index.IsFullText | src/Index.php:167-169 | the `full_text` flag |
| IndexModel.Index.GetType | src/Index.php:176-186 | the type by the precedence `IndexType` states |
| ForeignKeyModel.DefaultKeyname | src/Foreign_Key.php:83 | the given keyname, otherwise `fk_` followed by the column |
| ForeignKeyModel.ForeignKey.constructor | src/Foreign_Key.php:82-85 | keyname by the default rule, the column, no reference, empty actions |
| ForeignKeyModel.ForeignKey.ReferenceTable | src/Foreign_Key.php:94-97 | sets the reference table only |
| ForeignKeyModel.ForeignKey.ReferenceColumn | src/Foreign_Key.php:106-109 | sets the reference column only |
| ForeignKeyModel.ForeignKey.OnUpdate | src/Foreign_Key.php:118-121 | stores the action verbatim |
| ForeignKeyModel.ForeignKey.OnDelete | src/Foreign_Key.php:131-134 | stores the action verbatim |
| Exceptions.FailedValidation | src/Exception/WPDB_DB_Delta/WPDB_Validator_Exception.php:75-82 | code 201, the schema and errors kept, message `<table> failed with <n> errors` |
| Exceptions.FailedValidationCountsErrors | src/Exception/WPDB_DB_Delta/WPDB_Validator_Exception.php:79 | the message determines how many errors there were |
| Exceptions.DefaultSchemaException | src/Exception/Schema_Exception.php:41-49 | no schema, empty message, code 0 |
| Exceptions.ColumnNotExist | src/Exception/Schema_Exception.php:67-73 | code 301, the schema, the "not currently defined" message for the column |
| Exceptions.ColumnNotExistMessage | src/Exception/Schema_Exception.php:70 | definition: `column with name <column> is not currently defined` |
| Exceptions.ColumnNotExistNamesColumn | src/Exception/Schema_Exception.php:70 | the message determines the column it names |
| Exceptions.DefaultEngineException | src/Exception/Engine_Exception.php:41-49 | no schema, empty message, code 0 |
| Exceptions.CreateTableException | src/Exception/Engine_Exception.php:67-69 | the schema and the error as message, code 0 |
| Exceptions.DropTableException | src/Exception/Engine_Exception.php:78-80 | the schema and the error as message, code 0 |
| Exceptions.CreateAndDropIndistinguishable | src/Exception/Engine_Exception.php:67-80 | a create failure and a drop failure with the same error are the same exception |
| Exceptions.IntendedCreateTableException | src/Exception/Engine_Exception.php:67-69 | corrected: code 101 |
| Exceptions.IntendedDropTableException | src/Exception/Engine_Exception.php:78-80 | corrected: code 102 |
| Exceptions.IntendedCodesDistinguish | src/Exception/Engine_Exception.php:67-80 | with the corrected codes a create failure never equals a drop failure |
| EngineDefinition.ValidatorAlreadyDefined | src/Exceptions/Engine_Exception.php:37-40 | code 1 and the validator message |
| EngineDefinition.TranslatorAlreadyDefined | src/Exceptions/Engine_Exception.php:47-50 | code 2 and the translator message |
| EngineDefinition.DefinitionExceptionsDiffer | src/Exceptions/Engine_Exception.php:37-50 | the two exceptions differ in code and in message |
| SchemaModel.LastChainFound | src/Schema.php:82-86 | a column has a last declaration exactly when it is declared |
| SchemaModel.DeclaredKeys | src/Schema.php:82-86 | columns are listed in the order their names were first declared; re-declaring never moves or duplicates one |
| SchemaModel.FirstSeenSpec | src/Schema.php:84 | the first-seen order keeps names distinct and holds exactly the names given |
| SchemaModel.DeclaredState | src/Schema.php:82-86 | each column carries what its last declaration's chain did to a blank column; earlier chains are lost |
| SchemaModel.ConfiguredColumns | src/Schema.php:71-86 | after the callback: one column per distinct name, in first-seen order, with its last declaration, and nothing for undeclared names |
| SchemaModel.DeclareAll | src/Schema.php:73-86 | definition: the declarations run in order, each storing `AfterAll` of a blank column under its name with `$this->columns[$name] =`; `DeclaredKeys` and `DeclaredState` state the result |
| SchemaModel.LastChain | src/Schema.php:82-86 | reference definition: the chain of the last declaration of a name; `LastChainFound` and `DeclaredState` relate it to the columns |
| SchemaModel.Configured | src/Schema.php:71-74 | definition: the table name, the columns `DeclareAll` leaves, and no index or foreign key; `ConfiguredColumns` states its columns |
| SchemaModel.Schema.constructor | src/Schema.php:71-74 | stores the name, runs the callback, and ends in the schema `Configured` describes |
| SchemaModel.Schema.Configure | src/Schema.php:73 | running the declarations in order leaves the columns `DeclareAll` describes |
| SchemaModel.Schema.ConfigureOne | src/Schema.php:82-86 | one `column()` call and its chain puts the configured column under its name |
| SchemaModel.Schema.Column | src/Schema.php:82-86 | a fresh blank column is stored under the name (replacing any earlier one in place) and returned |
| SchemaModel.Schema.Store | src/Schema.php:84 | `$this->columns[$name] = $column`, keeping the schema's invariant |
| SchemaModel.Schema.Index | src/Schema.php:56 | a new index is appended to the index list and returned |
| SchemaModel.Schema.ForeignKey | src/Schema.php:63 | a new foreign key is appended and returned |
| SchemaModel.Schema.GetTableName | src/Schema.php:72 | the name given to the constructor |
| Translator.TypeMapper | src/Engines/WPDB_DB_Delta/DB_Delta_Translator.php:81-113 | the upper-cased type, followed by `(<length>)` exactly when it is a length type and a length is set |
| Translator.TypeMapperIgnoresCase | src/Engines/WPDB_DB_Delta/DB_Delta_Translator.php:82 | the type's case does not matter |
| Translator.ParseDefault | src/Engines/WPDB_DB_Delta/DB_Delta_Translator.php:123-136 | empty exactly without a default; string types quote the value, others do not |
| Translator.ParseDefaultRoundTrip | src/Engines/WPDB_DB_Delta/DB_Delta_Translator.php:123-136 | the default, or its absence, can be read back from the clause for every type, so different defaults give different clauses |
| Translator.TranslateColumns | src/Engines/WPDB_DB_Delta/DB_Delta_Translator.php:41-56 | one clause per column, under the column's name, in column order |
| Translator.ColumnClause | src/Engines/WPDB_DB_Delta/DB_Delta_Translator.php:45-53 | the clause starts with the column name and a space; the body is the `sprintf` itself: name, mapped type, flags, default |
| Translator.ColumnFlags | src/Engines/WPDB_DB_Delta/DB_Delta_Translator.php:49-51 | definition: the three flags of a column as `FlagsText` writes them, a flag counting only when it is `true` |
| Translator.FlagsText | src/Engines/WPDB_DB_Delta/DB_Delta_Translator.php:49-51 | definition: ` UNSIGNED` if set, then exactly one of ` NULL` and ` NOT NULL`, then ` AUTO_INCREMENT` if set |
| Translator.FlagsTextRoundTrip | src/Engines/WPDB_DB_Delta/DB_Delta_Translator.php:49-53 | the three flags and the default clause after them can be read back from the text |
| Translator.ColumnFlagsRoundTrip | src/Engines/WPDB_DB_Delta/DB_Delta_Translator.php:49-53 | a column's flags can be read back from its flags text whatever default clause follows |
| Translator.ColumnFlagsInjective | src/Engines/WPDB_DB_Delta/DB_Delta_Translator.php:49-51 | columns whose flags differ never get the same flags text |
| Translator.ColumnClauseDetermines | src/Engines/WPDB_DB_Delta/DB_Delta_Translator.php:45-53 | two columns with the same name, type and length get the same clause only when their flags and defaults agree |
| Translator.PrimaryClause | src/Engines/WPDB_DB_Delta/DB_Delta_Translator.php:149 | definition: `PRIMARY KEY  (col)` with two spaces; `TransformPrimary` states where it is used |
| Translator.Listed | src/Engines/WPDB_DB_Delta/DB_Delta_Translator.php:152-155 | the indexes under their list positions `0..n-1`, each position holding its index |
| Translator.FilterPrimary | src/Engines/WPDB_DB_Delta/DB_Delta_Translator.php:151-156 | keeps exactly the primary entries, with their keys, in their original order |
| Translator.FilterPrimaryExact | src/Engines/WPDB_DB_Delta/DB_Delta_Translator.php:151-156 | any increasing list holding exactly the primary entries is the filtered list: order and count are fixed |
| Translator.TransformPrimary | src/Engines/WPDB_DB_Delta/DB_Delta_Translator.php:146-158 | one `PRIMARY KEY (col)` per primary index, under that index's position, and nothing else, in index order |
| Translator.GroupKeyInjective | src/Engines/WPDB_DB_Delta/DB_Delta_Translator.php:231 | two non-primary indexes share a group exactly when keyname and type agree |
| Translator.GroupKey | src/Engines/WPDB_DB_Delta/DB_Delta_Translator.php:231 | definition: `keyname . '_' . get_type()`; `GroupKeyInjective` states when two keys coincide |
| Translator.AddToGroup | src/Engines/WPDB_DB_Delta/DB_Delta_Translator.php:225-234 | one reducer step: a primary index changes nothing; any other ends its group, which is created when missing; distinct keys and non-empty groups are kept |
| Translator.Members | src/Engines/WPDB_DB_Delta/DB_Delta_Translator.php:225-233 | a group's members are non-primary indexes of the schema with that group key |
| Translator.GroupIndexes | src/Engines/WPDB_DB_Delta/DB_Delta_Translator.php:222-237 | group keys are distinct and no group is empty |
| Translator.GroupIndexesKeys | src/Engines/WPDB_DB_Delta/DB_Delta_Translator.php:222-237 | groups appear in the order their key first occurs |
| Translator.GroupIndexesMembers | src/Engines/WPDB_DB_Delta/DB_Delta_Translator.php:225-233 | each group holds exactly its members in schema order, primaries skipped |
| Translator.MembersIffKey | src/Engines/WPDB_DB_Delta/DB_Delta_Translator.php:225-233 | a key has members exactly when some non-primary index produces it |
| Translator.ColumnsOf | src/Engines/WPDB_DB_Delta/DB_Delta_Translator.php:174-179 | the group's columns in order |
| Translator.TransformIndexes | src/Engines/WPDB_DB_Delta/DB_Delta_Translator.php:166-191 | one clause per group, under the group's distinct string key, each the clause of that group |
| Translator.IndexClause | src/Engines/WPDB_DB_Delta/DB_Delta_Translator.php:169-188 | `INDEX key (cols)` with the columns joined by ", ", prefixed by the upper-cased type and a space exactly when the type is non-empty |
| Translator.TransformIndexesClause | src/Engines/WPDB_DB_Delta/DB_Delta_Translator.php:166-191 | the clause under key `k` is the clause of every non-primary index grouped under `k`, and there is none when no index has that key |
| Translator.TransformForeignKeys | src/Engines/WPDB_DB_Delta/DB_Delta_Translator.php:199-214 | one clause per foreign key, in order, under its position |
| Translator.ForeignKeyClause | src/Engines/WPDB_DB_Delta/DB_Delta_Translator.php:202-211 | definition: `FOREIGN KEY k(c) REFERENCES t(rc)` then ` ON UPDATE a` and ` ON DELETE a` when set; `TransformForeignKeys` states where it is used |
| Translator.TranslateIndexes | src/Engines/WPDB_DB_Delta/DB_Delta_Translator.php:66-72 | definition: `array_merge` of the primary, group and foreign-key clauses; `TranslateIndexesOrder` states the result |
| Translator.TranslateIndexesOrder | src/Engines/WPDB_DB_Delta/DB_Delta_Translator.php:66-72 | the index clauses are the primary keys, then the groups, then the foreign keys, none lost; string keys are the groups' |
| Translator.PrimaryThenGroups | src/Engines/WPDB_DB_Delta/DB_Delta_Translator.php:67-69 | merging primary keys and groups loses nothing |
| Translator.MergedPrimaryGroups | src/Engines/WPDB_DB_Delta/DB_Delta_Translator.php:67-70 | the merged primary keys and groups keep distinct string keys for the next merge |
| Translator.IntTypeWithLength | src/Engines/WPDB_DB_Delta/DB_Delta_Translator.php:109 | `int` with length 11 maps to `INT(11)` |
| Translator.IdColumnExample | src/Engines/WPDB_DB_Delta/DB_Delta_Translator.php:45-53 | an unsigned, non-null, auto-increment `int(11)` column renders as `id INT(11) UNSIGNED NOT NULL AUTO_INCREMENT` |
| Validator.MissingTypeErrors | src/Engines/WPDB_DB_Delta/DB_Delta_Validator.php:84-107 | at most one message per column |
| Validator.MissingTypeErrorsSpec | src/Engines/WPDB_DB_Delta/DB_Delta_Validator.php:84-107 | no message exactly when every column has a type; each untyped column has its message; each message names an untyped column |
| Validator.MissingTypeErrorsCons | src/Engines/WPDB_DB_Delta/DB_Delta_Validator.php:87-91 | the messages are the first column's, then the rest's |
| Validator.MissingTypeErrorsAppend | src/Engines/WPDB_DB_Delta/DB_Delta_Validator.php:98-106 | the messages of two column lists concatenate |
| Validator.Untyped | src/Engines/WPDB_DB_Delta/DB_Delta_Validator.php:88 | definition: a column whose type is null |
| Validator.TypeErrorMessage | src/Engines/WPDB_DB_Delta/DB_Delta_Validator.php:102 | definition: `Column "<name>" has no type defined` |
| Validator.ErrorFor | src/Engines/WPDB_DB_Delta/DB_Delta_Validator.php:88-102 | definition: the message one column contributes: `Column "<name>" has no type defined` when it is untyped, nothing otherwise |
| Validator.IntendedValidationOf | src/Engines/WPDB_DB_Delta/DB_Delta_Validator.php:111-141 | corrected: always a verdict, with errors exactly when some column is untyped, and equal to `ValidationOf` when there is no index |
| Validator.ValidationOf | src/Engines/WPDB_DB_Delta/DB_Delta_Validator.php:48-141 | `validate()` fails with a TypeError exactly when there is an index; otherwise it returns whether some column is untyped |
| Validator.DbDeltaValidator.constructor | src/Engines/WPDB_DB_Delta/DB_Delta_Validator.php:40 | no errors |
| Validator.DbDeltaValidator.Validate | src/Engines/WPDB_DB_Delta/DB_Delta_Validator.php:48-59 | resets the errors to the schema's missing-type messages and returns `ValidationOf` |
| Validator.DbDeltaValidator.GetErrors | src/Engines/WPDB_DB_Delta/DB_Delta_Validator.php:66-68 | the error list |
| Validator.DbDeltaValidator.HasErrors | src/Engines/WPDB_DB_Delta/DB_Delta_Validator.php:75-77 | true exactly when there is an error |
| Validator.DbDeltaValidator.ValidateColumns | src/Engines/WPDB_DB_Delta/DB_Delta_Validator.php:84-108 | appends one message per untyped column |
| Validator.DbDeltaValidator.ValidatePrimaryKey | src/Engines/WPDB_DB_Delta/DB_Delta_Validator.php:111-141 | fails exactly when the schema has an index |
| Engine.InvertedCreateGate | src/Engines/WPDB_DB_Delta/DB_Delta_Engine.php:81-95 | as written, with no index, the create query is produced exactly when some column is untyped; a fully typed schema is refused with an empty error list |
| Engine.InvertedDropGate | src/Engines/WPDB_DB_Delta/DB_Delta_Engine.php:148-160 | the drop gate is inverted the same way |
| Engine.IndexesCrashValidation | src/Engines/WPDB_DB_Delta/DB_Delta_Validator.php:120-138 | any index makes both queries end in the validator's TypeError |
| Engine.TypedTableRefused | src/Engines/WPDB_DB_Delta/DB_Delta_Engine.php:84 | a one-column table with a typed column is refused |
| Engine.CreateQueryOutcome | src/Engines/WPDB_DB_Delta/DB_Delta_Engine.php:81-95 | as written: a TypeError exactly when there is an index; a refusal has code 1 and the errors' message; a query is `CreateSql` |
| Engine.DropQueryOutcome | src/Engines/WPDB_DB_Delta/DB_Delta_Engine.php:148-161 | as written: a TypeError exactly when there is an index; a refusal has code 2 and the errors' message; a query is `DropSql` |
| Engine.GateMessage | src/Engines/WPDB_DB_Delta/DB_Delta_Engine.php:86-90 | definition: `Failed to <verb> table <t> as failed validation: ` and the errors joined by `", \n"` |
| Engine.IntendedCreateQueryOutcome | src/Engines/WPDB_DB_Delta/DB_Delta_Engine.php:81-95 | corrected gate: definition; `IntendedCreateGate` states it |
| Engine.IntendedDropQueryOutcome | src/Engines/WPDB_DB_Delta/DB_Delta_Engine.php:148-161 | corrected gate: definition; `IntendedDropGate` states it |
| Engine.IntendedDropGate | src/Engines/WPDB_DB_Delta/DB_Delta_Engine.php:147-160 | corrected: dropped exactly when every column is typed; a refusal (code 2) lists every missing type |
| Engine.IntendedCreateGate | src/Engines/WPDB_DB_Delta/DB_Delta_Engine.php:84-93 | corrected: compiled exactly when every column is typed; a refusal (code 1) lists every missing type |
| Engine.CreateSqlLists | src/Engines/WPDB_DB_Delta/DB_Delta_Engine.php:209-226 | with distinct column names that no index group uses, the statement lists every column, then primary keys, groups and foreign keys |
| Engine.CreateBodyValues | src/Engines/WPDB_DB_Delta/DB_Delta_Engine.php:215-218 | under those conditions merging column and index clauses keeps all of them, columns first |
| Engine.CreateSql | src/Engines/WPDB_DB_Delta/DB_Delta_Engine.php:209-226 | definition: the heredoc around the merged column and index clauses; `CreateSqlLists` states what it lists |
| Engine.CreateText | src/Engines/WPDB_DB_Delta/DB_Delta_Engine.php:222-225 | definition: `CREATE TABLE <t> (`, a newline, the body, ` ) COLLATE <c> ` |
| Engine.DropSql | src/Engines/WPDB_DB_Delta/DB_Delta_Engine.php:201 | definition: `DROP TABLE IF EXISTS <t>;` |
| Engine.ColumnKeysFresh | src/Engines/WPDB_DB_Delta/DB_Delta_Engine.php:216 | distinct column names give distinct clause keys |
| Engine.IndexKeysFresh | src/Engines/WPDB_DB_Delta/DB_Delta_Engine.php:215-218 | no index clause key collides with a column clause key under that condition |
| Engine.ColumnIndexKeyClash | src/Engines/WPDB_DB_Delta/DB_Delta_Engine.php:215-218 | a column named like an index group's key loses a clause in the merge |
| Engine.StoreError | src/Engines/WPDB_DB_Delta/DB_Delta_Engine.php:116-124 | no error exactly when nothing was printed and `last_error` is empty; printed output wins (`"0"` becomes `""`) |
| Engine.CreateTableRun | src/Engines/WPDB_DB_Delta/DB_Delta_Engine.php:104-127 | a failure to produce the query is passed on unchanged; a store error raises the create exception for this schema with the error `StoreError` reads; `CreateTableSucceeds` gives the success case |
| Engine.DropTableRun | src/Engines/WPDB_DB_Delta/DB_Delta_Engine.php:171-190 | the same for drop, on the `DROP TABLE` text; `DropTableSucceeds` gives the success case |
| Engine.CreateTableSucceeds | src/Engines/WPDB_DB_Delta/DB_Delta_Engine.php:104-127 | `create_table` succeeds exactly when the query is produced and the store reports nothing; a store failure names the schema |
| Engine.DropTableSucceeds | src/Engines/WPDB_DB_Delta/DB_Delta_Engine.php:171-190 | `drop_table` succeeds exactly when the query is produced and the store reports nothing |
| Engine.DbDeltaEngine.constructor | src/Engines/WPDB_DB_Delta/DB_Delta_Engine.php:66-72 | a fresh validator with no errors and no schema |
| Engine.DbDeltaEngine.SetQueryForCreate | src/Engines/WPDB_DB_Delta/DB_Delta_Engine.php:81-95 | stores the schema, runs the validator, and lets the caller go on exactly when `validate()` returned true |
| Engine.DbDeltaEngine.SetQueryForDrop | src/Engines/WPDB_DB_Delta/DB_Delta_Engine.php:148-160 | the same for the drop gate |
| Engine.DbDeltaEngine.CompileCreateSqlQuery | src/Engines/WPDB_DB_Delta/DB_Delta_Engine.php:209-226 | the create statement for the stored schema, which it leaves unchanged |
| Engine.DbDeltaEngine.CreateTableQuery | src/Engines/WPDB_DB_Delta/DB_Delta_Engine.php:136-139 | the outcome `CreateQueryOutcome` gives |
| Engine.DbDeltaEngine.DropTableQuery | src/Engines/WPDB_DB_Delta/DB_Delta_Engine.php:199-202 | the outcome `DropQueryOutcome` gives |
| Engine.DbDeltaEngine.CreateTable | src/Engines/WPDB_DB_Delta/DB_Delta_Engine.php:104-127 | the run `CreateTableRun` describes |
| Engine.DbDeltaEngine.DropTable | src/Engines/WPDB_DB_Delta/DB_Delta_Engine.php:171-190 | the run `DropTableRun` describes |
| TableIndexModel.CellText | __DB_Delta.php:147 | a string is itself; an empty array interpolates as `Array` |
| TableIndexModel.Created | Table_Index.php:115-117 | as written, the constructor leaves `keyname` unset and writes the undeclared `name` |
| TableIndexModel.IntendedCreated | Table_Index.php:115-117 | corrected: the constructor sets the keyname |
| TableIndexModel.CreatedLosesKeyname | Table_Index.php:115-117 | every index has the same (unset) keyname as written; corrected, keynames differ exactly when the given names do |
| TableIndexModel.ActionClause | Table_Index.php:223 | the prefix, then the action upper-cased character by character |
| TableIndexModel.StoredActionSpec | Table_Index.php:222-238 | a stored action is never empty, and the action's case does not matter |
| TableIndexModel.TableIndex.constructor | Table_Index.php:115-117 | the state `Created` describes |
| TableIndexModel.TableIndex.Column | Table_Index.php:138-141 | sets the column only |
| TableIndexModel.TableIndex.Unique | Table_Index.php:150-153 | sets `unique` only |
| TableIndexModel.TableIndex.FullText | Table_Index.php:162-165 | sets `full_text` only |
| TableIndexModel.TableIndex.ForeignKey | Table_Index.php:174-177 | sets `foreign_key` only |
| TableIndexModel.TableIndex.Hash | Table_Index.php:186-189 | sets `hash` only |
| TableIndexModel.TableIndex.ReferenceTable | Table_Index.php:198-201 | sets the reference table only |
| TableIndexModel.TableIndex.ReferenceColumn | Table_Index.php:210-213 | sets the reference column only |
| TableIndexModel.TableIndex.OnUpdate | Table_Index.php:222-225 | stores `ON UPDATE ` and the upper-cased action |
| TableIndexModel.TableIndex.OnDelete | Table_Index.php:235-238 | stores `ON DELETE ` and the upper-cased action |
| TableSchemaModel.NewEntry | Table_Schema.php:125-132 | a declared column has its key, `null` false and `length` null, and nothing else |
| TableSchemaModel.WithProperty | Table_Schema.php:244 | writing a property changes that property only |
| TableSchemaModel.WithProperties | Table_Schema.php:244 | definition: the properties written in order |
| TableSchemaModel.PushToLast | Table_Schema.php:239-245 | fails with the "No columns defined" message exactly when there is no column; otherwise only the last column changes |
| TableSchemaModel.PushAllLast | Table_Schema.php:239-245 | a run of properties fails exactly on an empty schema and otherwise writes all of them into the last column |
| TableSchemaModel.PushAll | Table_Schema.php:239-245 | definition: pushes in order, stopping at the first exception; `PushAllLast` states it |
| TableSchemaModel.Run | Table_Schema.php:125-245 | as written: a script of `column()` and setter calls, setters writing to the last key; `RedeclaredColumnMisdirected` shows it |
| TableSchemaModel.LengthShortcut | Table_Schema.php:307-373 | the type, then the length exactly when it is truthy |
| TableSchemaModel.DefaultShortcut | Table_Schema.php:382-403 | the type, then the default exactly when it is truthy |
| TableSchemaModel.LengthShortcutEffect | Table_Schema.php:307-373 | a length shortcut sets the type and a truthy length, nothing else |
| TableSchemaModel.DefaultShortcutEffect | Table_Schema.php:382-403 | a default shortcut sets the type and a truthy default, nothing else |
| TableSchemaModel.RedeclaredColumnMisdirected | Table_Schema.php:239-245 | declaring `a`, `b`, `a` again and then setting a type types `b` |
| TableSchemaModel.PushToCurrent | Table_Schema.php:239-245 | corrected: writing into the column declared last fails exactly when no declared column is current |
| TableSchemaModel.PushToCurrentTargets | Table_Schema.php:239-245 | corrected: only the current column changes and the keys stay |
| TableSchemaModel.PushToCurrentAgreesOnLast | Table_Schema.php:244 | when the current column is the last key, the corrected write equals the written one |
| TableSchemaModel.IntendedRun | Table_Schema.php:125-245 | corrected: the same script, `column()` making its key current; `RedeclaredColumnIntended` shows it |
| TableSchemaModel.RedeclaredColumnIntended | Table_Schema.php:239-245 | corrected: on the same script `a` gets the type and `b` is untouched |
| TableSchemaModel.TableNameOf | Table_Schema.php:264-266 | the name, or a TypeError when unset |
| TableSchemaModel.PrimaryKeyOf | Table_Schema.php:274-276 | the key, or a TypeError when unset |
| TableSchemaModel.TableSchema.constructor | Table_Schema.php:42-66 | nothing set, no index and no column |
| TableSchemaModel.TableSchema.Create | Table_Schema.php:88-92 | a new schema with only the name set |
| TableSchemaModel.TableSchema.Table | Table_Schema.php:76-79 | sets the name only |
| TableSchemaModel.TableSchema.Primary | Table_Schema.php:101-104 | sets the primary key only |
| TableSchemaModel.TableSchema.Index | Table_Schema.php:113-116 | appends the index only |
| TableSchemaModel.TableSchema.Column | Table_Schema.php:125-132 | `$this->columns[$key] = ...`: a fresh entry, in place for a re-declared key |
| TableSchemaModel.TableSchema.PushToLastColumn | Table_Schema.php:239-245 | the columns `PushToLast` gives, or the exception with the columns unchanged |
| TableSchemaModel.TableSchema.PushAllToLastColumn | Table_Schema.php:239-245 | the columns `PushAll` gives, or the exception |
| TableSchemaModel.TableSchema.Type | Table_Schema.php:141-144 | writes `type` into the last column |
| TableSchemaModel.TableSchema.Nullable | Table_Schema.php:155-158 | writes `null` into the last column |
| TableSchemaModel.TableSchema.Length | Table_Schema.php:189-192 | writes `length` into the last column |
| TableSchemaModel.TableSchema.Default | Table_Schema.php:201-204 | writes `default` into the last column |
| TableSchemaModel.TableSchema.AutoIncrement | Table_Schema.php:213-216 | writes `auto_increment` into the last column |
| TableSchemaModel.TableSchema.Unsigned | Table_Schema.php:225-228 | writes `unsigned` into the last column |
| TableSchemaModel.TableSchema.WithLength | Table_Schema.php:307-373 | the length shortcuts: type, then a truthy length |
| TableSchemaModel.TableSchema.WithDefault | Table_Schema.php:382-403 | the default shortcuts: type, then a truthy default |
| TableSchemaModel.TableSchema.GetTableName | Table_Schema.php:264-266 | the name, or a TypeError when unset |
| TableSchemaModel.TableSchema.GetPrimaryKey | Table_Schema.php:274-276 | the key, or a TypeError when unset |
| DeltaBuilder.ParseType | src/Builders/DB_Delta.php:293-326 | the upper-cased type (`""` for null), followed by `(<length>)` exactly for a length type with a non-zero length |
| DeltaBuilder.ParseTypeMatchesTranslator | src/Builders/DB_Delta.php:293-326 | the builder's type text equals the translator's except for a length type given length 0, where the builder writes no `(0)` |
| DeltaBuilder.ParseDefault | src/Builders/DB_Delta.php:123-129 | ` DEFAULT ` then `CURRENT_TIMESTAMP` bare or any other value quoted |
| DeltaBuilder.ParseDefaultRoundTrip | src/Builders/DB_Delta.php:123-129 | the default can be read back from its clause |
| DeltaBuilder.ColumnHead | src/Builders/DB_Delta.php:89-93 | definition: key, mapped type, and the default clause only when `! empty( default )` |
| DeltaBuilder.KeyText | src/Builders/DB_Delta.php:89 | definition: the interpolated `key`, empty when the key is absent |
| DeltaBuilder.HasDefault | src/Builders/DB_Delta.php:91 | definition: a present default that PHP does not consider empty |
| DeltaBuilder.IsUnsigned | src/Builders/DB_Delta.php:96 | definition: only a stored `true` adds UNSIGNED |
| DeltaBuilder.IsNotNull | src/Builders/DB_Delta.php:101 | definition: `null` false or absent adds NOT NULL |
| DeltaBuilder.IsAutoIncrement | src/Builders/DB_Delta.php:106 | definition: only a stored `true` adds AUTO_INCREMENT |
| DeltaBuilder.FlagsTail | src/Builders/DB_Delta.php:96-108 | definition: UNSIGNED, NOT NULL, AUTO_INCREMENT in that order; `FlagsTailDecode` states it can be read back |
| DeltaBuilder.FlagsTailDecode | src/Builders/DB_Delta.php:96-108 | the three column flags can be read back from the text they add |
| DeltaBuilder.FlagsTailInjective | src/Builders/DB_Delta.php:96-108 | different flag combinations write different text |
| DeltaBuilder.ColumnLineFlags | src/Builders/DB_Delta.php:89-110 | two columns with the same head and line agree on all three flags |
| DeltaBuilder.ColumnLine | src/Builders/DB_Delta.php:88-111 | definition: the head, then the flags tail; `ColumnLineFlags` and `DeclaredColumnLine` state it |
| DeltaBuilder.DeclaredColumnLine | src/Builders/DB_Delta.php:89-110 | a declared column given only a type renders as `key TYPE NOT NULL` |
| DeltaBuilder.ColumnLines | src/Builders/DB_Delta.php:84-115 | one line per column, in order |
| DeltaBuilder.ParseColumns | src/Builders/DB_Delta.php:84-115 | definition: the column lines joined with `",\n"`; `TableBodyLists` states the body it starts |
| DeltaBuilder.SimpleBucketKeepsLast | src/Builders/DB_Delta.php:254-270 | the simple bucket has distinct keynames and keeps the last simple index for each |
| DeltaBuilder.AddIndex | src/Builders/DB_Delta.php:257-265 | definition: a foreign index goes under its reference table then its keyname, a simple one under its keyname, both by keyed assignment |
| DeltaBuilder.CompileIndexes | src/Builders/DB_Delta.php:254-270 | definition: the `array_reduce` of `AddIndex`; `SimpleBucketKeepsLast`, `NoKeynamesOneSimpleIndex` and `CompiledGroupsNonEmpty` state it |
| DeltaBuilder.NoKeynamesOneSimpleIndex | src/Builders/DB_Delta.php:261 | when no keyname is set (the constructor never sets it), at most one simple index survives |
| DeltaBuilder.FirstNonEmptySpec | src/Builders/DB_Delta.php:211-225 | the first non-empty action is found, and nothing only when all are empty |
| DeltaBuilder.FirstNonEmpty | src/Builders/DB_Delta.php:212-225 | definition: the first action PHP does not consider empty; `FirstNonEmptySpec` states it |
| DeltaBuilder.OnUpdates | src/Builders/DB_Delta.php:212-217 | definition: the group's `on_update` values in order |
| DeltaBuilder.OnDeletes | src/Builders/DB_Delta.php:220-225 | definition: the group's `on_delete` values in order |
| DeltaBuilder.ActionSuffix | src/Builders/DB_Delta.php:212-225 | definition: a space and the first non-empty action, or nothing |
| DeltaBuilder.CompileForeignKeyQuery | src/Builders/DB_Delta.php:196-227 | the two `foreach` loops produce `ForeignKeyQuery` |
| DeltaBuilder.AppendFirstAction | src/Builders/DB_Delta.php:211-217 | the loop appends the first non-empty action and stops |
| DeltaBuilder.ForeignKeyQuery | src/Builders/DB_Delta.php:196-227 | definition: the head, the first non-empty ON UPDATE and ON DELETE, then the trailer; `CompileForeignKeyQuery` is the loop it specifies |
| DeltaBuilder.ForeignKeyHead | src/Builders/DB_Delta.php:208-209 | definition: `FOREIGN KEY (<cols>)`, a newline, `REFERENCES <first table>(<ref cols>)` |
| DeltaBuilder.LocalColumns | src/Builders/DB_Delta.php:237-247 | definition: the indexes' columns joined with `", "` |
| DeltaBuilder.ReferenceColumns | src/Builders/DB_Delta.php:237-247 | definition: the indexes' reference columns joined with `", "` |
| DeltaBuilder.IndexClause | src/Builders/DB_Delta.php:177 | definition: `INDEX (<cols>)` for one reference table's group |
| DeltaBuilder.SimpleClause | src/Builders/DB_Delta.php:144-148 | at least `INDEX ()` long; definition: `[UNIQUE ]INDEX <key> (<column>)[ USING HASH]` |
| DeltaBuilder.GroupCarry | src/Builders/DB_Delta.php:176-179 | definition: the `index` and `key` entries one group writes into the carry |
| DeltaBuilder.ReduceGroups | src/Builders/DB_Delta.php:174-186 | definition: every group overwrites the carry; `ForeignOnlyLastGroup` states the result |
| DeltaBuilder.ForeignEntries | src/Builders/DB_Delta.php:172-188 | definition: the `index` and `key` entries after the reduce, empty arrays when there is no group; `ForeignTexts` states them |
| DeltaBuilder.ForeignOnlyLastGroup | src/Builders/DB_Delta.php:172-187 | the reducer overwrites its carry, so only the last reference table's group is kept |
| DeltaBuilder.CompiledGroupsNonEmpty | src/Builders/DB_Delta.php:254-270 | every foreign group holds at least one index |
| DeltaBuilder.SimpleEntries | src/Builders/DB_Delta.php:142-150 | one clause per simple index, under its keyname |
| DeltaBuilder.SimpleClauses | src/Builders/DB_Delta.php:143-149 | the simple clauses in bucket order |
| DeltaBuilder.NonEmptyTextsAppend | src/Builders/DB_Delta.php:155-160 | filtering out empty entries distributes over concatenation |
| DeltaBuilder.NonEmptyTexts | src/Builders/DB_Delta.php:155-160 | definition: the entries PHP does not consider empty, as text, in order |
| DeltaBuilder.NonEmptyTextsKeepsStrings | src/Builders/DB_Delta.php:155-160 | non-empty strings all survive the filter |
| DeltaBuilder.Formatted | src/Builders/DB_Delta.php:138-160 | definition: the simple clauses merged with the foreign entries, empty ones filtered out; `ParseIndexesLists` states the result |
| DeltaBuilder.ParseIndexes | src/Builders/DB_Delta.php:136-164 | definition: `",\n"` before the joined clauses only when one remains; `ParseIndexesLists` states it |
| DeltaBuilder.SimpleKeysFromIndexes | src/Builders/DB_Delta.php:261 | every simple keyname comes from a non-foreign index |
| DeltaBuilder.ParseIndexesLists | src/Builders/DB_Delta.php:136-164 | without reserved keynames, the clauses are the simple ones, then the last foreign group's `INDEX` and `FOREIGN KEY` |
| DeltaBuilder.ForeignTexts | src/Builders/DB_Delta.php:151-160 | after filtering, the foreign part is the last group's two clauses, or nothing |
| DeltaBuilder.SimpleThenForeign | src/Builders/DB_Delta.php:142-152 | `array_merge` keeps every simple clause and appends the foreign pair |
| DeltaBuilder.MergeSimpleThenForeign | src/Builders/DB_Delta.php:142-152 | that merge loses nothing when no simple keyname is `index` or `key` |
| DeltaBuilder.IntendedForeignClausesAll | src/Builders/DB_Delta.php:172-187 | corrected: table `i`'s `INDEX` and `FOREIGN KEY` clauses sit at positions `2i` and `2i+1` |
| DeltaBuilder.IntendedForeignClauses | src/Builders/DB_Delta.php:172-187 | corrected reduce: two clauses per reference table; `IntendedForeignClausesAll` places them |
| DeltaBuilder.TwoReferenceTables | src/Builders/DB_Delta.php:172-187 | with two reference tables, as written only the second is rendered; corrected, both are |
| DeltaBuilder.CreateQuery | src/Builders/DB_Delta.php:69-73 | the statement exists exactly when name and primary key are set; otherwise a TypeError |
| DeltaBuilder.TableBody | src/Builders/DB_Delta.php:70-72 | definition: columns, `",\n"`, the key clause, then the index text; `TableBodyLists` states it |
| DeltaBuilder.TableBodyLists | src/Builders/DB_Delta.php:70-72 | the body is one comma-newline list of column lines, key clause and index clauses |
| DeltaBuilder.CreateQueryLists | src/Builders/DB_Delta.php:69-73 | the whole statement around that list, with the collation |
| DeltaBuilder.Builder.constructor | src/Builders/DB_Delta.php:49-51 | the collation and no schema |
| DeltaBuilder.Builder.Build | src/Builders/DB_Delta.php:59-62 | stores the schema and renders its statement |
| DeltaBuilder.Builder.Render | src/Builders/DB_Delta.php:69-77 | the statement for the stored schema |
| DeltaBuilder.CreateTable | Table_Schema.php:254-256 | `create_table( $builder )` hands the schema to the builder, which renders it |
| LegacyDelta.FirstIncompleteSpec | __DB_Delta.php:114-129 | the earliest incomplete foreign key is found, and nothing only when all are complete |
| LegacyDelta.IncompleteForeignKey | __DB_Delta.php:116-118 | definition: a foreign index whose reference table or reference column is empty |
| LegacyDelta.FirstIncomplete | __DB_Delta.php:115-129 | definition: the first index the `foreach` throws on; `FirstIncompleteSpec` states it |
| LegacyDelta.ForeignKeyMessage | __DB_Delta.php:119-127 | definition: the `sprintf` message, each missing part written `UNDEFINED` |
| LegacyDelta.IndexesFault | __DB_Delta.php:114-129 | no exception exactly when every foreign key names both references; otherwise the first incomplete one's message |
| LegacyDelta.ValidateIndexes | __DB_Delta.php:114-129 | the `foreach` throws what `IndexesFault` says |
| LegacyDelta.SchemaFault | __DB_Delta.php:83-106 | no exception exactly when the name is set and non-empty, every column has its four properties, and the indexes pass; checked in that order |
| LegacyDelta.HasRequiredProperties | __DB_Delta.php:90-98 | definition: a column with the `key`, `null`, `type` and `length` keys |
| LegacyDelta.MissingPropertiesMessage | __DB_Delta.php:100 | definition: `Columns in <table> schema are missing required properties.` |
| LegacyDelta.ValidateSchema | __DB_Delta.php:83-106 | the checks produce `SchemaFault` |
| LegacyDelta.ParsePrimaryKey | __DB_Delta.php:158-161 | the key clause for a non-empty key, `""` for an empty one, a TypeError for an unset one |
| LegacyDelta.CompileCreateSql | __DB_Delta.php:146-151 | the statement exists exactly when name and primary key are set |
| LegacyDelta.LegacyBuild | __DB_Delta.php:60-64 | a statement exactly when validation passes and a key is set; otherwise validation's exception |
| LegacyDelta.NoForeignKeysNoGroups | __DB_Delta.php:338-354 | without foreign indexes there is no foreign group |
| LegacyDelta.LegacyAgreesWithBuilder | __DB_Delta.php:146-151 | on a valid schema with a key and no foreign index, the older builder writes the same statement as the newer one |
| LegacyDelta.NoIndexesNoClauses | __DB_Delta.php:220-248 | no index gives no clause and no text |
| LegacyDelta.EmptyPrimaryKeyDanglingComma | __DB_Delta.php:146-161 | as written, an empty key leaves `,\n)` after the columns |
| LegacyDelta.KeyClauses | __DB_Delta.php:158-161 | corrected: no key clause exactly for an empty key |
| LegacyDelta.IntendedCompileCreateSql | __DB_Delta.php:146-151 | corrected: the statement exists exactly when name and key are set |
| LegacyDelta.IntendedTableBody | __DB_Delta.php:146-161 | corrected body: definition; `IntendedBodyLists` and `IntendedBodyWithKey` state it |
| LegacyDelta.NonEmptyTextsAreNonEmpty | __DB_Delta.php:238-245 | the filter leaves no empty clause |
| LegacyDelta.FormattedNonEmpty | __DB_Delta.php:238-245 | no index clause is empty |
| LegacyDelta.IntendedBodyLists | __DB_Delta.php:146-151 | corrected: the body is one list of column lines, key clauses and index clauses, none empty |
| LegacyDelta.IntendedBodyWithKey | __DB_Delta.php:146-161 | corrected and written bodies agree for a non-empty key |
| LegacyDelta.IntendedCreateSqlSpec | __DB_Delta.php:146-161 | corrected: equals the written statement for a non-empty key, and has no dangling separator for an empty one |
| LegacyDelta.DropQuery | __DB_Delta.php:72-75 | as written: fails before any `build`, validates the stored schema, then drops the argument's table |
| LegacyDelta.DropText | __DB_Delta.php:74 | definition: `DROP TABLE IF EXISTS <t>;` |
| LegacyDelta.DropChecksStoredSchema | __DB_Delta.php:72-75 | after building a valid schema, dropping one with an empty name issues `DROP TABLE IF EXISTS ;` |
| LegacyDelta.IntendedDropQuery | __DB_Delta.php:72-75 | corrected: a statement exactly when the schema to drop validates, naming its non-empty table |
| LegacyDelta.IntendedDropAgrees | __DB_Delta.php:72-75 | when the stored schema is the argument, both drops agree |
| LegacyDelta.BuildQuery | __DB_Delta.php:60-64 | validation then compilation give `LegacyBuild` |
| LegacyDelta.LegacyBuilder.constructor | __DB_Delta.php:50-52 | the collation and no schema |
| LegacyDelta.LegacyBuilder.Build | __DB_Delta.php:60-64 | stores the schema and produces `LegacyBuild` of it |
| LegacyDelta.LegacyBuilder.Drop | __DB_Delta.php:72-75 | produces `DropQuery` of the stored schema and the argument |
| PageValidatorModel.NewPage | Page.php:89-91 | a new page has only its key |
| PageValidatorModel.KeyMessages | Page_Validator.php:116-122 | no message exactly for a non-empty key the pattern accepts; otherwise "not defined" or "invalid" |
| PageValidatorModel.KeyPatternMatches | Page_Validator.php:119 | definition: the key matches the pattern, or does once a final newline is dropped (`$` without the D modifier) |
| PageValidatorModel.TitleMessages | Page_Validator.php:129-133 | a message exactly when the menu title is empty |
| PageValidatorModel.ViewMessages | Page_Validator.php:140-144 | a message exactly when there is view data and no template |
| PageValidatorModel.CheckMessages | Page_Validator.php:100-109 | definition: key, title, then (WordPress mode) view messages; `CheckMessagesSpec` states it |
| PageValidatorModel.Acceptable | Page_Validator.php:100-144 | reference definition: key set and matching, title set, and in WordPress mode no view data without a template |
| PageValidatorModel.CheckMessagesSpec | Page_Validator.php:100-109 | no message exactly when the page is acceptable in the mode; at most three, and two for ACF pages |
| PageValidatorModel.Logged | Page_Validator.php:87-93 | one log entry per message |
| PageValidatorModel.LoggedAppend | Page_Validator.php:87-93 | logging distributes over concatenation |
| PageValidatorModel.Validate | Page_Validator.php:68-79 | the page is stored, the log holds exactly its check messages, the flag matches the log, and the ACF mode, once set, stays |
| PageValidatorModel.HasErrorsSpec | Page_Validator.php:160-162 | after a validation, `has_errors()` exactly when the page is not acceptable |
| PageValidatorModel.ReportHeader | Page_Validator.php:171-177 | definition: `Errors thrown validating <key> : <title>`, `NO KEY` / `NO MENU TITLE` for null ones |
| PageValidatorModel.ErrorReport | Page_Validator.php:169-187 | definition: the header and each entry's messages joined with `\n`, all joined with `", "`; `ErrorReportLists` states it |
| PageValidatorModel.ErrorReportLists | Page_Validator.php:169-187 | the report is the header, then exactly the checks' messages, joined with `, ` |
| PageValidatorModel.ReportWithoutKey | tests/test-Page_Validator.php:19-26 | a page without a key reports `NO KEY`, the missing key and the missing title |
| PageValidatorModel.ReportInvalidKey | tests/test-Page_Validator.php:28-35 | `INVALID KEY @` is reported as invalid and shown as given |
| PageValidatorModel.ReportViewDataWithoutTemplate | tests/test-Page_Validator.php:46-55 | view data without a template is reported with the page's title |
| PageValidatorModel.StickyAcfSkipsViewCheck | Page_Validator.php:74-76 | after an ACF page, a WordPress page with view data and no template passes, though it fails on a fresh validator |
| PageValidatorModel.IntendedValidate | Page_Validator.php:68-79 | corrected: the mode comes from the page alone |
| PageValidatorModel.IntendedValidateHistoryFree | Page_Validator.php:68-79 | corrected: the result depends only on the page, equals a fresh validator's, and flags exactly unacceptable pages |
| PageValidatorModel.KeyPatternAcceptsTrailingNewline | Page_Validator.php:119 | as written, `home` followed by a newline passes the key check |
| PageValidatorModel.IntendedKeyMessages | Page_Validator.php:116-122 | corrected: no message exactly for a whole-string key match |
| PageValidatorModel.IntendedKeyMessagesSpec | Page_Validator.php:119 | the two checks differ exactly on keys that match once a final newline is dropped, and the corrected one only rejects more |
| PageValidatorModel.PageValidator.constructor | Page_Validator.php:37-59 | no page, no error, no message, WordPress mode |
| PageValidatorModel.PageValidator.ValidatePage | Page_Validator.php:68-79 | the new state is `Validate` of the old state and the page |
| PageValidatorModel.PageValidator.ErrorLog | Page_Validator.php:87-93 | sets the flag and appends one entry |
| PageValidatorModel.PageValidator.RunChecks | Page_Validator.php:100-109 | appends the key, title and (WordPress mode only) view messages |
| PageValidatorModel.PageValidator.CheckKeys | Page_Validator.php:116-122 | appends the key messages |
| PageValidatorModel.PageValidator.CheckTitles | Page_Validator.php:129-133 | appends the title messages |
| PageValidatorModel.PageValidator.CheckView | Page_Validator.php:140-144 | appends the view messages |
| PageValidatorModel.PageValidator.HasErrors | Page_Validator.php:160-162 | true exactly when something was logged |
| PageValidatorModel.PageValidator.GetErrorMessages | Page_Validator.php:169-187 | the report starts with `Errors thrown validating ` |

## Left out

- WordPress calls (`dbDelta`, `$wpdb->get_results`, `require_once`, `ob_start`) are not modelled. A store function parameter stands for them: it answers a query with the output it printed and `last_error`. `$wpdb->collate` is a parameter.
- `dump()` in `DB_Delta_Validator` and the `E_USER_DEPRECATED` notice of `Table_Schema::null()` are not modelled. `null()` writes the same property as `nullable()`.
- PHP's conversion of numeric-string array keys to integers is not modelled. Column names and keynames are taken as non-numeric strings.
- `src/Schema.php` declares no `index()`, `foreign_key()` or getters, and `src/Column.php` / `src/Foreign_Key.php` declare none of the getters the translator calls. The model reads the properties those getters are named after. `Schema.Index` / `Schema.ForeignKey` append to the `indexes` / `foreign_keys` arrays, as the tests use them.
- SchemaModel.Schema.constructor: the callback is modelled as a list of `column( name )` calls, each followed by its own chain of setters. A PHP callback can keep a returned `Column` and configure it after later `column()` calls, and can interleave the configuration of several columns. The model does not express that, so `SchemaModel.DeclaredState` and `SchemaModel.ConfiguredColumns` describe only callbacks of the modelled shape.
- The tests use a table prefix, decimal precision, `remove_column`, the engine codes 101/102 and `set_validator`. The source does not have them, so they are not modelled beyond the corrected exception codes.
- The interfaces (`SQL_Builder`, `SQL_Schema`, `Engine`, `Schema_Validator`) are not modelled; their implementations are modelled directly.
- A non-`int` `$length` passed to a setter (a PHP TypeError) cannot be expressed, because the model's arguments are typed.
- Page fields other than the key, menu title, view template and view data are not modelled. `ACF_Page` is a flag on the page. Each logged entry's `'page'` element is not kept, because the report does not read it.
- ColumnModel.Column.UnsignedInt: `unsigned()` is called without its required argument, which PHP refuses. The model takes it as `unsigned( true )`. The same holds for `ColumnModel.Column.UnsignedMedium`.
- ColumnModel.Column.UnsignedMedium: same as `UnsignedInt`.
- PageValidatorModel.PageValidator.GetErrorMessages: its contract states only the report's prefix. `PageValidatorModel.ErrorReportLists` states the whole report after a validation.
- Validator.MissingTypeErrors: its own contract is a bound only. The full statement is `Validator.MissingTypeErrorsSpec`.
- The `validate_primary_key` reducer raises a `TypeError` on the first index. The model records that as one outcome (`ReducerTypeError`) and does not model the partial state at that moment.

## Findings

| source | as written | input that shows it | evidently intended | confidence | as-written member | corrected member |
|---|---|---|---|---|---|---|
| src/Engines/WPDB_DB_Delta/DB_Delta_Engine.php:84 | the query is refused when `validate()` returns false, but `validate()` returns `has_errors()` | a table whose only column is typed is refused; one with an untyped column is compiled | refuse exactly when there are errors | not executed | Engine.InvertedCreateGate | Engine.IntendedCreateGate |
| src/Engines/WPDB_DB_Delta/DB_Delta_Engine.php:151 | the drop gate is inverted the same way | a table whose columns are all typed cannot be dropped | refuse exactly when there are errors | not executed | Engine.InvertedDropGate | Engine.IntendedDropGate |
| src/Engines/WPDB_DB_Delta/DB_Delta_Validator.php:122-132 | the reducer declared `: array` returns nothing, a TypeError | any schema with one index | the reducer returns its carry | not executed | Engine.IndexesCrashValidation | Validator.IntendedValidationOf |
| src/Exception/Engine_Exception.php:67-80 | both factories use code 0 | a create failure and a drop failure with the same error are equal | distinct codes (101, 102) | not executed | Exceptions.CreateAndDropIndistinguishable | Exceptions.IntendedCodesDistinguish |
| Table_Index.php:115-117 | the constructor writes an undeclared `name` and leaves `keyname` unset | `Table_Index::name( 'ix_a' )` has no keyname | set `keyname` | not executed | TableIndexModel.CreatedLosesKeyname | TableIndexModel.IntendedCreated |
| Table_Schema.php:239-245 | setters write into the last array key, not into the column just declared | `column('a')`, `column('b')`, `column('a')`, `type('int')` types `b` | write into the column last declared | not executed | TableSchemaModel.RedeclaredColumnMisdirected | TableSchemaModel.RedeclaredColumnIntended |
| src/Builders/DB_Delta.php:172-187 | the reducer overwrites `index`/`key`, keeping only the last reference table | two foreign indexes on different reference tables | one clause pair per reference table | not executed | DeltaBuilder.TwoReferenceTables | DeltaBuilder.IntendedForeignClausesAll |
| __DB_Delta.php:146-151 | the key clause's separator is written even when the clause is empty | a valid schema with primary key `''` and no index ends in `,\n)` | no separator without a key | not executed | LegacyDelta.EmptyPrimaryKeyDanglingComma | LegacyDelta.IntendedCreateSqlSpec |
| __DB_Delta.php:72-75 | `drop` validates the stored schema, not its argument (and fails before any `build`) | build `users`, then drop a schema named `''` | validate the schema being dropped | not executed | LegacyDelta.DropChecksStoredSchema | LegacyDelta.IntendedDropAgrees |
| Page_Validator.php:74-76 | the ACF mode is set but never reset | validate an ACF page, then a WordPress page with view data and no template | the mode follows each page | not executed | PageValidatorModel.StickyAcfSkipsViewCheck | PageValidatorModel.IntendedValidateHistoryFree |
| Page_Validator.php:119 | `$` without the D modifier accepts a final newline | the key `"home\n"` | the whole key matches | not executed | PageValidatorModel.KeyPatternAcceptsTrailingNewline | PageValidatorModel.IntendedKeyMessagesSpec |
