# miguel, modelled in Dafny

miguel describes a database schema in a Ruby DSL. It compares two such schemas and
writes the Sequel migration that turns one into the other. It can also rebuild a
schema from what a live Sequel database reports. This project models that core:

- **Schema entities** (`lib/miguel/schema.rb`). Columns, indexes and foreign keys
  are values (`Entities`). Their canonical types, canonical options, computed
  defaults, equality and one-line dumps are modelled with them. A column's type is a
  Ruby value: a symbol as the DSL writes it, or a string for the bare database types
  the importer reads back, which dump differently. A table and a schema
  are classes whose methods change their fields in place (`SchemaModel.Table`,
  `SchemaModel.Schema`). Each method is proved against a function on the
  table's or schema's data.
- **Defaults.** `set_defaults`, `set_standard_defaults` and `apply_defaults` form a
  rule table: aliases, default option hashes and callbacks (`Defaults`). Each table
  statement resolves through this table before it reaches `add_definition`.
- **Ruby hashes** (`Options`). A hash is a sequence of entries with distinct keys.
  Its insertion order matters for output. Its equality (`OptsEq`) does not depend
  on order.
- **Output and Dumper.** `out_value`/`out_hash` render values as Ruby literals
  (`Output`). `Dumper` (`lib/miguel/dumper.rb`) is a class with a line buffer, an
  indent and a step. Its block form is split into `Open` and `Close`.
- **Migrator** (`lib/miguel/migrator.rb`):
  - `separate`, `each_pair`, `prepare_keys` and `split_keys`;
  - every `dump_*` method, as a method on a `Dumper` proved against a function that
    gives its statements;
  - `changes`, `change_migration` and `full_migration`.

  The lemmas about them cover: a schema migrated to itself produces nothing; dropped
  or created tables and keys are exactly the vanished or appearing ones; `each_pair`
  never fails on what `changes` hands it.
- **Importer** (`lib/miguel/importer.rb`):
  - `parse_elements`;
  - the type-literal reversal and its size rule;
  - `DEFAULT_CONSTANTS`;
  - `import_foreign_keys`, `import_indexes`, `import_columns` and `import_table`.

  The database records (`db.foreign_key_list`, `db.indexes`, `db.schema`,
  `db.database_type`) are parameters.

Errors raised with `fail` become `Fail(...)` outcomes or `Err(...)` results, and the
state they leave behind is stated.

## Model

| member | source | states |
|---|---|---|
| `Options.Get` | lib/miguel/schema.rb:104 | a lookup yields the value the hash holds under the key, or nil when the key is absent |
| `Options.Put` | lib/miguel/importer.rb:165 | assignment updates the meaning at that key only; an existing key keeps its position, a new key goes last; keys stay distinct |
| `Options.Merge` | lib/miguel/schema.rb:149-151 | `merge!` means the union in which the merged-in keys win; keys stay distinct; the receiver's keys keep their order at the front |
| `Options.MergeKeyOrder` | lib/miguel/schema.rb:149-151 | the key order after `merge!` is the receiver's keys, then the merged-in keys that are new, in their own order |
| `Options.NewKeysAre` | lib/miguel/schema.rb:149-151 | the keys a merge appends are exactly the merged-in keys the receiver lacked, each once |
| `Options.MergedOptionsWin` | lib/miguel/schema.rb:539 | after merging in a non-empty hash, every key of that hash reads back its value there |
| `Options.Reject` | lib/miguel/schema.rb:113 | `reject` removes exactly the listed keys and keeps every other entry unchanged |
| `Options.Delete` | lib/miguel/importer.rb:157-158 | `delete` returns what the key held (nil if nothing) and leaves the hash without that key |
| `Options.RejectTwice` | lib/miguel/importer.rb:153-158 | rejecting one set of keys and then another equals rejecting both at once |
| `Options.RejectPut` | lib/miguel/importer.rb:165 | assigning a key, then removing other keys, equals removing them first and assigning after |
| `Options.DeleteThrice` | lib/miguel/importer.rb:118-120 | three deletes of different keys return the three original values and leave the hash without all three |
| `Options.GetPut` | lib/miguel/importer.rb:165 | assigning one key leaves every other key's value unchanged |
| `Output.NatToString` | lib/miguel/schema.rb:26 | an integer's inspection is a non-empty run of decimal digits |
| `Output.NatToStringRoundTrip` | lib/miguel/schema.rb:26 | reading the digits back gives the number: rendering loses nothing |
| `Output.OutHash` | lib/miguel/schema.rb:30-33 | an empty hash renders as nothing; any other renders as the prefix followed by its entries |
| `Output.OutEntriesAppend` | lib/miguel/schema.rb:32 | entries render in insertion order, joined with ", " |
| `Output.PutNewKeyRendersLast` | lib/miguel/schema.rb:32 | an option set on a new key is rendered after every option already present |
| `Output.OutTypeKinds` | lib/miguel/schema.rb:49-51 | a capitalised type dumps bare; otherwise a symbol type dumps as `:name` and the same type as a string dumps quoted, so the two differ |
| `Output.OrderShowsInOutput` | lib/miguel/schema.rb:30-33 | two hashes that are `==` can still dump differently |
| `Dumper.RenderAppend` | lib/miguel/dumper.rb:26-37 | dumping two runs of statements writes the lines of the first, then those of the second |
| `Dumper.RenderOne` | lib/miguel/dumper.rb:26-37 | a run of one statement writes that statement's lines |
| `Dumper.BlockStepped` | lib/miguel/dumper.rb:27-32 | the header line, then the body one step deeper, then `end`, is the block's output |
| `Dumper.RenderLinesEndInNewline` | lib/miguel/dumper.rb:34 | every line written is non-empty and ends in a newline |
| `Dumper.ConcatAppend` | lib/miguel/dumper.rb:16-18 | `text` of a longer buffer is the text of the first part followed by the text of the rest |
| `Dumper.Dumper.constructor` | lib/miguel/dumper.rb:9-13 | a new dumper holds the given buffer (empty by default), indent 0 and the given step (2 by default) |
| `Dumper.Dumper.Dump` | lib/miguel/dumper.rb:33-35 | a line is appended at the current indent with a newline; the indent is unchanged |
| `Dumper.Dumper.Open` | lib/miguel/dumper.rb:27-29 | opening a block writes `header do` and deepens the indent by one step |
| `Dumper.Dumper.Close` | lib/miguel/dumper.rb:31-32 | closing a block restores the indent and writes `end` |
| `Dumper.Dumper.DumpAll` | lib/miguel/dumper.rb:26-37 | dumping a tree of lines and blocks appends exactly its rendering and restores the indent |
| `Dumper.NestingRendered` | test/test_dumper.rb:17-39 | the nested `test`/`row`/`foo` example renders to the lines the test expects |
| `Dumper.NestingExample` | test/test_dumper.rb:17-39 | running the nested example on a dumper leaves exactly those lines in its buffer |
| `Dumper.CustomBufferExample` | test/test_dumper.rb:64-71 | a dumper given a buffer adds `"xyz\n"` and `"abc\n"` after what the buffer held, and its text is the buffer's text followed by `"xyz\nabc\n"` |
| `Dumper.NonStringExample` | test/test_dumper.rb:48-54 | dumping the `to_s` of `123` and `:test` writes `"123\ntest\n"` |
| `Entities.DefaultOptsFor` | lib/miguel/schema.rb:135-140 | the implied options of a type form a hash with distinct keys |
| `Entities.Column.AllowNull` | lib/miguel/schema.rb:103-106 | a column allows NULL unless `:null` is exactly `false`; with no `:null` it is `true` |
| `Entities.Column.TypeDefault` | lib/miguel/schema.rb:89-100 | `""` for strings, `false` for booleans, the first element (or `""`) for enums and sets, `0` otherwise; by canonical type |
| `Entities.Column.Default` | lib/miguel/schema.rb:82-86 | an explicit `:default` wins; otherwise a nullable column has nil and a NOT NULL one has its type default |
| `Entities.Column.TypeOpts` | lib/miguel/schema.rb:109-114 | the options without `:null` and `:default`, and nothing else removed |
| `Entities.Column.CanonicOpts` | lib/miguel/schema.rb:147-153 | empty for a compound primary key; otherwise canonical type and computed default, then implied options, then own options, with `:key` dropped |
| `Entities.Column.DumpLine` | lib/miguel/schema.rb:164-166 | the dump line starts with the column type and a space; without options it is type and name only |
| `Entities.Index.CanonicOpts` | lib/miguel/schema.rb:185-192 | `:unique` defaults to false and is always present; own options win; `:null` is dropped |
| `Entities.Index.DumpLine` | lib/miguel/schema.rb:202-204 | the dump line starts with `index `; without options it is the column list alone |
| `Entities.NewIndex` | lib/miguel/schema.rb:179-182 | the columns argument is splatted into a list; the options are kept |
| `Entities.WrapKey` | lib/miguel/schema.rb:221-223 | a truthy `:key` is wrapped into a list in place; every other option is kept |
| `Entities.ForeignKey.CanonicOpts` | lib/miguel/schema.rb:228-233 | the options without `:null`, `:unsigned` and `:type`, everything else kept in order |
| `Entities.ForeignKey.DumpLine` | lib/miguel/schema.rb:244-246 | the dump line starts with `foreign_key `; without options it is the columns and target only |
| `Entities.NewForeignKey` | lib/miguel/schema.rb:217-224 | columns splatted into a list, target kept, `:key` wrapped into a list |
| `Entities.CanonicTypeIdempotent` | lib/miguel/schema.rb:117-132 | canonicalising a canonical type changes nothing |
| `Entities.AliasedTypesCanonicaliseAlike` | lib/miguel/schema.rb:117-132 | `Fixnum`/`Integer`, `TrueClass`/`FalseClass` and `String` name the same canonical types |
| `Entities.SameCanonicTypeSameColumn` | lib/miguel/schema.rb:156-161 | two spellings of one canonical type give equal columns |
| `Entities.PrimaryKeySpellingMatters` | lib/miguel/schema.rb:148 | the compound-key exception needs exactly the symbol `:primary_key`: a `:Primary_Key` or a string `"primary_key"` type compares unequal to it |
| `Entities.StringTypeComparesAsSymbol` | lib/miguel/schema.rb:129-132 | a column typed by a string equals the same column typed by the symbol, since `canonic_type` goes through `to_s` |
| `Entities.ImpliedOptionsAreRedundant` | lib/miguel/schema.rb:147-153 | writing out a type's implied options does not change the column |
| `Entities.ImpliedOptsNeitherNullNorDefault` | lib/miguel/schema.rb:135-140 | no implied option touches `:null`, `:default` or `:elements` |
| `Entities.SameDefaults` | lib/miguel/schema.rb:82-106 | the computed default depends only on the type, `:null`, `:default` and `:elements` |
| `Entities.ImpliedStringSize` | lib/miguel/schema.rb:135-140 | a `String` column equals one with `:size => 255` |
| `Entities.ComputedDefaults` | lib/miguel/schema.rb:82-100 | NOT NULL string gets `""`, nullable string nil, NOT NULL integer 0, NOT NULL enum its first element |
| `Entities.IndexColumnOrderMatters` | lib/miguel/schema.rb:195-199 | indexes on the same columns in another order are different |
| `Entities.IndexUniqueDefault` | lib/miguel/schema.rb:185-192 | an index with no options equals one saying `:unique => false, :null => true` |
| `Entities.ForeignKeyIgnoredOptions` | lib/miguel/schema.rb:228-241 | setting `:null`, `:unsigned` or `:type` never changes foreign key equality |
| `Entities.ForeignKeyKeepsDefault` | lib/miguel/schema.rb:228-233 | any other option, such as `:default`, does change it |
| `Entities.ForeignKeyTargetMatters` | lib/miguel/schema.rb:236-241 | keys to different tables are different |
| `Entities.ForeignKeyWrapsKey` | lib/miguel/schema.rb:221-223 | `:key => :id` is stored as `:key => [:id]` |
| `Defaults.GetDefaults` | lib/miguel/schema.rb:458-460 | the set options for a name, or the empty hash |
| `Defaults.Stem` | lib/miguel/schema.rb:526-530 | a name ending in `?` loses that one character; any other is kept |
| `Defaults.RunCallback` | lib/miguel/schema.rb:488-493 | the standard key callback sets `:type => :integer` only when the key is not compound and no truthy type is present |
| `Defaults.Resolve` | lib/miguel/schema.rb:522-543 | the resolved statement is the alias of the stem, or the stem |
| `Defaults.BaseOptsLayers` | lib/miguel/schema.rb:523-533 | before the callback: global defaults, then `:null => true` for `?`, then the stem's defaults, then the `?` name's |
| `Defaults.CalledOptsLayers` | lib/miguel/schema.rb:523-537 | after the callback the options mean the layered defaults with the callback's change |
| `Defaults.ResolvePrecedence` | lib/miguel/schema.rb:522-543 | positional arguments are kept; one trailing hash holds the layered options with the caller's on top, absent only when there are none |
| `Defaults.CallerOptionsWin` | lib/miguel/schema.rb:539 | an option the caller wrote always reaches the statement with the caller's value |
| `Defaults.StandardRules` | lib/miguel/schema.rb:478-518 | the standard rule table is well formed |
| `Defaults.StandardGlobalNotNull` | lib/miguel/schema.rb:487 | the standard global defaults say `:null => false` |
| `Defaults.StandardDefaultNull` | lib/miguel/schema.rb:487-515 | only `:global` sets `:null` among the standard defaults |
| `Defaults.StandardIntegerKeys` | lib/miguel/schema.rb:488-493 | both key statements carry the integer-type callback |
| `Defaults.StandardKeyCallbacks` | lib/miguel/schema.rb:488-493 | `primary_key` and `foreign_key` both use the same integer-unless-compound callback |
| `Defaults.StandardKeyTypes` | lib/miguel/schema.rb:487-493 | no standard default for the key statements or `:global` fixes `:type` |
| `Defaults.NotNullByDefault` | lib/miguel/schema.rb:522-533 | under the standard rules a statement without `?` and without `:null` is NOT NULL |
| `Defaults.NullableByDefault` | lib/miguel/schema.rb:526-533 | a `?` statement without `:null` allows NULL |
| `Defaults.KeysDefaultToInteger` | lib/miguel/schema.rb:488-493 | a single-column key without an explicit type gets `:type => :integer` |
| `Defaults.CompoundKeyHasNoType` | lib/miguel/schema.rb:483-493 | a compound key gets no type |
| `Defaults.OwnDefaultApplies` | lib/miguel/schema.rb:532 | a statement's own default applies when the caller does not override it |
| `Defaults.StandardUnique` | lib/miguel/schema.rb:497 | `unique` becomes `index` with `:unique => true` |
| `Defaults.StandardTypeNames` | lib/miguel/schema.rb:501-515 | `Text?` is a `String`, `Time?` a `timestamp`, `Bool` a `TrueClass`; `foreign_key` keeps its name |
| `SchemaModel.StandardisedWellFormed` | lib/miguel/schema.rb:478-518 | applying the standard defaults over well-formed rules keeps them well formed |
| `SchemaModel.StandardisedFromScratch` | lib/miguel/schema.rb:478-518 | standard defaults on a fresh schema give exactly the standard rule table |
| `SchemaModel.Table.constructor` | lib/miguel/schema.rb:299-305 | a new table has its name, belongs to its schema and has no columns, indexes or keys |
| `SchemaModel.Table.NamedColumns` | lib/miguel/schema.rb:318-320 | for each name, the column of that name or nil when there is none |
| `SchemaModel.Table.AddColumn` | lib/miguel/schema.rb:323-326 | a new name appends the column; a taken name fails and leaves the table unchanged |
| `SchemaModel.Table.AddIndex` | lib/miguel/schema.rb:329-331 | the index is appended; columns are untouched |
| `SchemaModel.Table.AddForeignKey` | lib/miguel/schema.rb:334-337 | as the key function: a scalar key first adds an integer column, and a taken name fails with no change |
| `SchemaModel.Table.AddDefinition` | lib/miguel/schema.rb:340-350 | the statement after `apply_defaults` goes to `index`, `foreign_key` or a column, with the same success or failure |
| `SchemaModel.Table.AddResolved` | lib/miguel/schema.rb:342-349 | the dispatch on the resolved statement name, including wrong argument shapes |
| `SchemaModel.Table.AddNext` | lib/miguel/schema.rb:265-267 | one statement of the block, stopping the block at its first failure |
| `SchemaModel.Table.AddDefinitions` | lib/miguel/schema.rb:353-357 | a table block runs its statements in order and stops at the first failure, keeping what came before |
| `SchemaModel.Table.Dump` | lib/miguel/schema.rb:360-372 | appends the table block: header, columns, indexes and foreign keys, `end`; the indent is restored |
| `SchemaModel.DumpLines` | lib/miguel/schema.rb:362-370 | the entity loops write one line per entity in order |
| `SchemaModel.TableDumpLines` | lib/miguel/schema.rb:360-372 | the table dump has `2 + columns + indexes + keys` lines, each entity's own line one step deeper |
| `SchemaModel.Lookup` | lib/miguel/schema.rb:319 | the column with that name, found exactly when one exists |
| `SchemaModel.Schema.constructor` | lib/miguel/schema.rb:377-382 | a new schema has no tables, aliases, defaults or callbacks |
| `SchemaModel.Schema.NamedTables` | lib/miguel/schema.rb:395-397 | for each name, the table of that name or nil |
| `SchemaModel.FindTable` | lib/miguel/schema.rb:395-397 | the table with that name, found exactly when one exists |
| `SchemaModel.Schema.AddTable` | lib/miguel/schema.rb:400-406 | a new name appends a fresh empty table of this schema, keeping table names distinct; a taken name fails and changes nothing |
| `SchemaModel.Schema.AddJoinTable` | lib/miguel/schema.rb:418-427 | the table named by the sorted table names (or given) runs the two keys, the compound key and the reversed unique index, then the block |
| `SchemaModel.Schema.SetDefaults` | lib/miguel/schema.rb:450-455 | the alias, hash and callback are recorded; leftover arguments fail after recording, as in the source |
| `SchemaModel.Schema.SetStandardDefaults` | lib/miguel/schema.rb:478-518 | the rule table becomes the standardised one; tables are untouched |
| `SchemaModel.Schema.Define` | lib/miguel/schema.rb:554-559 | fails without a block; otherwise applies standard defaults unless `:use_defaults` is exactly `false` |
| `SchemaModel.Schema.ApplyDefaults` | lib/miguel/schema.rb:522-543 | the step-by-step merge on a local hash computes exactly the resolution function |
| `SchemaModel.Schema.Dump` | lib/miguel/schema.rb:546-551 | appends every table's block, in table order, and restores the indent |
| `SchemaModel.ColumnAddedKeepsDistinct` | lib/miguel/schema.rb:323-326 | adding fails exactly on a taken name, and success keeps names distinct and grows the table by one |
| `SchemaModel.ForeignKeyAddsColumnOnlyForScalar` | lib/miguel/schema.rb:334-337 | a key on a list adds no column; a scalar key fails exactly on a taken name, else adds an integer column and the key |
| `SchemaModel.DefinedExtends` | lib/miguel/schema.rb:340-350 | a successful definition only appends and keeps column names distinct |
| `SchemaModel.FoldExtends` | lib/miguel/schema.rb:353-357 | running any number of statements only appends and keeps column names distinct |
| `SchemaModel.DefineAllExtends` | lib/miguel/schema.rb:353-357 | a table block only appends and keeps column names distinct |
| `SchemaModel.FoldFails` | lib/miguel/schema.rb:324 | a failing statement ends the block with its error and the table as it was |
| `SchemaModel.DefineAllAppend` | lib/miguel/schema.rb:425 | running two blocks one after another is running the first, then the second only if the first passed |
| `SchemaModel.ResolvedShape` | lib/miguel/schema.rb:539-542 | positional arguments come through unchanged, followed by the resolved options |
| `SchemaModel.ForeignKeyStatement` | lib/miguel/schema.rb:334-346 | `foreign_key id, :t` adds an integer column `id` and a key to `t` with the resolved options |
| `SchemaModel.ColumnStatement` | lib/miguel/schema.rb:340-348 | any other statement adds a column of that type with the resolved options |
| `SchemaModel.IndexStatement` | lib/miguel/schema.rb:340-344 | `index` adds an index with the resolved options |
| `SchemaModel.ForeignKeyStep` | lib/miguel/schema.rb:334-337 | a scalar foreign key statement adds exactly one integer column and one key |
| `SchemaModel.PrimaryKeyStep` | lib/miguel/schema.rb:340-348 | `primary_key cols` adds one column of type `primary_key` |
| `SchemaModel.UniqueStep` | lib/miguel/schema.rb:424 | `unique cols` adds one index and nothing else |
| `SchemaModel.JoinKeys` | lib/miguel/schema.rb:421-422 | the two key statements add both integer columns and both keys, in order |
| `SchemaModel.JoinIndexes` | lib/miguel/schema.rb:423-424 | then the compound primary key column and the unique index on the reversed columns |
| `SchemaModel.JoinTableContents` | lib/miguel/schema.rb:409-427 | a join table has the two id columns, the compound key, two keys and one reversed unique index |
| `SchemaModel.StringLeTotal` | lib/miguel/schema.rb:419 | any two names are ordered one way or the other |
| `SchemaModel.StringLeAntisymmetric` | lib/miguel/schema.rb:419 | names ordered both ways are equal |
| `SchemaModel.JoinNameSymmetric` | lib/miguel/schema.rb:419 | the default join table name does not depend on the order of the two tables |
| `SchemaModel.DefaultsSetFailsOnLeftovers` | lib/miguel/schema.rb:450-455 | `set_defaults` passes exactly for: no arguments, one alias or one hash, or an alias then a hash |
| `SchemaModel.DefaultsSetOnlyTouchesName` | lib/miguel/schema.rb:450-455 | the rules for every other name are unchanged |
| `SchemaModel.DefaultsSetAliasAndOptions` | lib/miguel/schema.rb:451-453 | an alias and a hash set the target and the defaults; the callback is set exactly when given |
| `SchemaModel.ColumnWithOptionsStep` | lib/miguel/schema.rb:340-350 | a column statement with a hash adds one column whose options agree with that hash on every key it names |
| `SchemaModel.CallerHashResolved` | lib/miguel/schema.rb:539-542 | after resolution the statement still has its value, then a hash in which the caller's options win |
| `SchemaModel.NotNullWithDefault` | lib/miguel/schema.rb:82-106 | `:null => false` with a non-nil default gives a NOT NULL column with that default |
| `SchemaModel.TimestampStep` | lib/miguel/schema.rb:284-285 | each timestamp statement adds a NOT NULL `timestamp` column with the given default |
| `SchemaModel.TimestampsDefined` | lib/miguel/schema.rb:276-286 | `timestamps` adds `create_time` defaulting to 0 and `update_time` defaulting to the auto-update literal, both NOT NULL |
| `Separation.Filter` | lib/miguel/migrator.rb:16-20 | keeps exactly the elements satisfying the test, never more than it had |
| `Separation.FilterSplits` | lib/miguel/migrator.rb:16-20 | an element either passes a test or its negation: together they are a permutation of the input |
| `Separation.HasEqualFiltered` | lib/miguel/migrator.rb:16-18 | `find` in a filtered list succeeds exactly when some kept element is `==` |
| `Separation.SeparateSame` | lib/miguel/migrator.rb:16 | the same items are the new items that equal some old one |
| `Separation.SeparateNew` | lib/miguel/migrator.rb:16-20 | the added items are the new ones equal to no old one; the same and added items together permute the new list |
| `Separation.SeparateOld` | lib/miguel/migrator.rb:18 | the removed items are the old ones equal to no new one |
| `Separation.SeparateSelf` | lib/miguel/migrator.rb:14-22 | separating a list from itself keeps all and removes and adds nothing |
| `Separation.SeparateAligned` | lib/miguel/migrator.rb:14-22 | on lists aligned by name, what is removed and what is added have the same names in the same order |
| `Separation.SeparatePresent` | lib/miguel/migrator.rb:14-22 | every removed, same or added item comes from the list it is said to |
| `Separation.SeparateSwap` | lib/miguel/migrator.rb:14-22 | swapping the two lists turns removed items into added ones |
| `Separation.FilterDistinct` | lib/miguel/migrator.rb:16-20 | filtering a list without repeats gives one without repeats |
| `Migrator.FlattenKeysMembers` | lib/miguel/migrator.rb:33-41 | the pairs are exactly those of a table's name with one of its keys |
| `Migrator.PrepareKeys` | lib/miguel/migrator.rb:33-41 | the nested loops compute those pairs, each key tagged with its table's name, tables in order and keys in order |
| `Migrator.FindGroup` | lib/miguel/migrator.rb:47 | the position of the group for a table name, found exactly when there is one |
| `Migrator.GroupNamesUpTo` | lib/miguel/migrator.rb:44-50 | the hash keys are the table names in order of first appearance |
| `Migrator.GroupKeysUpTo` | lib/miguel/migrator.rb:44-50 | each table's list holds exactly its keys, in their original order |
| `Migrator.FirstNamesDistinct` | lib/miguel/migrator.rb:45-48 | no table name is a key twice |
| `Migrator.FirstNamesMembers` | lib/miguel/migrator.rb:46-47 | the keys are exactly the names that occur |
| `Migrator.SplitKeys` | lib/miguel/migrator.rb:44-50 | the loop builds the grouping function's result |
| `Migrator.SplitKeysNames` | lib/miguel/migrator.rb:44-50 | the groups have distinct names, exactly the table names that occur |
| `Migrator.SplitKeysGroups` | lib/miguel/migrator.rb:44-50 | each group holds exactly its table's keys in order |
| `Migrator.DumpDropIndexes` | lib/miguel/migrator.rb:98-102 | one `drop_index` line per index, in order |
| `Migrator.DumpAddIndexes` | lib/miguel/migrator.rb:105-109 | one `add_index` line per index, in order |
| `Migrator.DumpDropColumns` | lib/miguel/migrator.rb:112-120 | one `drop_constraint` or `drop_column` line per column, in order |
| `Migrator.DumpAddColumns` | lib/miguel/migrator.rb:123-131 | one `add_primary_key` or `add_column` line per column, in order |
| `Migrator.DumpDropTables` | lib/miguel/migrator.rb:91-95 | one `drop_table` line per table, in order |
| `Migrator.DumpAlterColumn` | lib/miguel/migrator.rb:134-147 | the four conditional alterations in their fixed order |
| `Migrator.DumpPair` | lib/miguel/migrator.rb:26-28 | one step of `each_pair`: a matching name dumps the pair, a mismatch writes nothing |
| `Migrator.DumpAlterColumns` | lib/miguel/migrator.rb:150-154 | paired lists always pass and dump every pair; a failure names the first mismatch and leaves the earlier pairs dumped |
| `Migrator.ColumnsNamed` | lib/miguel/migrator.rb:165-169 | the columns of the given names, in the order of the names |
| `Migrator.TablesNamed` | lib/miguel/migrator.rb:205-209 | the tables of the given names, in the order of the names |
| `Migrator.FindData` | lib/miguel/migrator.rb:205 | the table of that name, found exactly when it exists |
| `Migrator.ColumnEqIsEquivalence` | lib/miguel/schema.rb:156-161 | column `==` is an equivalence and implies equal names |
| `Migrator.IndexEqIsEquivalence` | lib/miguel/schema.rb:195-199 | index `==` is an equivalence |
| `Migrator.TableKeyEqIsEquivalence` | lib/miguel/migrator.rb:198 | `==` on `[ name, key ]` pairs is an equivalence |
| `Migrator.SameColumnNames` | lib/miguel/migrator.rb:160-163 | removed names come from the old table, kept names from both (without repeats), added names from the new one |
| `Migrator.ChangedColumnsPair` | lib/miguel/migrator.rb:168-171 | the changed columns on both sides line up name by name, so `each_pair` cannot fail |
| `Migrator.Diff` | lib/miguel/migrator.rb:157-171 | the column pairs handed to `dump_alter_columns` are aligned by name |
| `Migrator.DumpAlterTable` | lib/miguel/migrator.rb:157-182 | writes the table's alteration block, or nothing when no section has content |
| `Migrator.DumpAltered` | lib/miguel/migrator.rb:175-181 | the five sections in order inside one `alter_table` block |
| `Migrator.DumpTablePair` | lib/miguel/migrator.rb:186-188 | one step of `each_pair` over tables |
| `Migrator.DumpAlterTables` | lib/miguel/migrator.rb:185-189 | paired tables always pass and dump every pair; a failure names the first mismatch |
| `Migrator.DumpAddTables` | lib/miguel/migrator.rb:76-88 | writes one `create_table` block per table, in order |
| `Migrator.DumpCreateTable` | lib/miguel/migrator.rb:78-86 | columns then indexes, and no foreign keys |
| `Migrator.DumpForeignKeys` | lib/miguel/migrator.rb:53-59 | writes one `alter_table` block per group of the grouping of the pairs, in group order |
| `Migrator.DumpKeyBlock` | lib/miguel/migrator.rb:55-57 | one block with one line per key of the group |
| `Migrator.DumpAddForeignKeys` | lib/miguel/migrator.rb:62-66 | key blocks with `add_foreign_key` lines |
| `Migrator.DumpDropForeignKeys` | lib/miguel/migrator.rb:69-73 | key blocks with `drop_foreign_key` lines |
| `Migrator.Compare` | lib/miguel/migrator.rb:194-209 | the kept tables are aligned by name on both sides, with distinct columns |
| `Migrator.DumpDiff` | lib/miguel/migrator.rb:211-215 | dropped keys, dropped tables, altered tables, created tables, added keys, in that order |
| `Migrator.DumpChanges` | lib/miguel/migrator.rb:194-218 | writes exactly the changes from one table list to the other |
| `Migrator.Changes` | lib/miguel/migrator.rb:194-218 | `changes( from, to )` writes the changes between the two schemas as they were |
| `Migrator.ChangeMigration` | lib/miguel/migrator.rb:221-227 | the changes inside `Sequel.migration do change do … end end` |
| `Migrator.FullMigration` | lib/miguel/migrator.rb:230-239 | `up` with the changes forward and `down` with them backward, inside `Sequel.migration` |
| `Migrator.DumpBothWays` | lib/miguel/migrator.rb:231-238 | the `up` and `down` blocks in that order |
| `Migrator.DumpDirection` | lib/miguel/migrator.rb:232-234 | one named block around one direction's changes |
| `MigrationProperties.AlterTableOfItself` | lib/miguel/migrator.rb:173 | a table compared with itself needs no alteration block |
| `MigrationProperties.AlterTablesOfThemselves` | lib/miguel/migrator.rb:185-189 | tables compared with themselves write nothing |
| `MigrationProperties.ChangesOfItself` | lib/miguel/migrator.rb:194-218 | the changes from a schema to itself are empty |
| `MigrationProperties.FullMigrationOfItself` | lib/miguel/migrator.rb:230-239 | the full migration of a schema to itself has empty `up` and `down` blocks |
| `MigrationProperties.EmptyMigrationRendered` | lib/miguel/migrator.rb:230-239 | that empty migration is the six expected lines |
| `MigrationProperties.CompareSwapped` | lib/miguel/migrator.rb:198-206 | swapping the schemas swaps dropped with created tables and dropped with added keys |
| `MigrationProperties.DropsVanishedTables` | lib/miguel/migrator.rb:203-212 | the dropped tables are exactly the old ones whose name vanished |
| `MigrationProperties.CreatesAppearingTables` | lib/miguel/migrator.rb:203-214 | the created tables are exactly the new ones whose name appeared |
| `MigrationProperties.AltersKeptTables` | lib/miguel/migrator.rb:208-213 | every altered pair is one table from each side with the same name |
| `MigrationProperties.DropsVanishedKeys` | lib/miguel/migrator.rb:195-211 | a key is dropped exactly when no equal key exists in the new schema |
| `MigrationProperties.AddsAppearingKeys` | lib/miguel/migrator.rb:195-215 | a key is added exactly when no equal key exists in the old schema |
| `MigrationProperties.StringTypeDumpsQuoted` | lib/miguel/migrator.rb:128 | a column typed by the string `"datetime"` is added as `add_column :c, "datetime"`, one typed by the symbol as `add_column :c, :datetime` |
| `MigrationProperties.AlterLinesDiffer` | lib/miguel/migrator.rb:134-147 | the four alteration lines are told apart by their command |
| `MigrationProperties.NullLines` | lib/miguel/migrator.rb:135-146 | `allow_null` is written exactly when NULL becomes allowed, `not_null` exactly when it stops, never both |
| `MigrationProperties.AlterColumnLineCount` | lib/miguel/migrator.rb:134-147 | one line per condition that holds, so at most three |
| `MigrationProperties.AlterColumnOfItself` | lib/miguel/migrator.rb:134-147 | a column altered into itself writes nothing |
| `Importer.UnescapeEscape` | lib/miguel/importer.rb:22-35 | unescaping an escaped value gives it back |
| `Importer.ScanElement` | lib/miguel/importer.rb:34 | a quoted body followed by anything but a quote scans as that body, then the rest |
| `Importer.ScanQuoted` | lib/miguel/importer.rb:34 | a quoted list scans into one body per element, in order |
| `Importer.ParseQuoted` | lib/miguel/importer.rb:33-37 | parsing a properly quoted list returns its elements: a round trip |
| `Importer.OtherPairsKept` | lib/miguel/importer.rb:35 | a backslash pair without a mapping is kept as written |
| `Importer.ParseTwoElements` | lib/miguel/importer.rb:33-37 | `'a','b'` parses as `a` and `b` |
| `Importer.ParseDoubledQuote` | lib/miguel/importer.rb:22-35 | a doubled quote stands for one quote |
| `Importer.ParseUnclosed` | lib/miguel/importer.rb:34 | a trailing unpaired quote is ignored |
| `Importer.BareWordLiteral` | lib/miguel/importer.rb:61-74 | a bare word no earlier pattern claims comes back as the literal itself, a string and not a symbol, with no options |
| `Importer.MysqlType` | lib/miguel/importer.rb:45-58 | any MySQL option hash has distinct keys drawn from the internal keys, and never `:size` |
| `Importer.RevertTypeLiteralInternal` | lib/miguel/importer.rb:41-75 | the same holds for every reverted type |
| `Importer.GenericType` | lib/miguel/importer.rb:61-74 | only `varchar` and `char` imply a size, `255` for a string |
| `Importer.DropTrailingEmpty` | lib/miguel/importer.rb:85 | `split( ',' )` drops trailing empty fields |
| `Importer.WithSize` | lib/miguel/importer.rb:92-96 | `:default_size` is removed; `:size` is set exactly when a size was read and differs from it |
| `Importer.RevertTypeLiteral` | lib/miguel/importer.rb:79-99 | the same type as the internal reversal, with only type option keys and no `:default_size` |
| `Importer.SizeRule` | lib/miguel/importer.rb:81-96 | `:size` appears exactly when the literal's size differs from the implied one; other options pass through |
| `Importer.BooleanHint` | lib/miguel/importer.rb:43 | a boolean hint gives `:boolean`, with a size only when it is not 1 |
| `Importer.DefaultSizesAreImplied` | lib/miguel/importer.rb:41-75 | every implied size outside integers is the size schema columns imply anyway |
| `Importer.MysqlSizes` | lib/miguel/importer.rb:48-55 | the MySQL implied sizes are 10 or 11 for `int`, 20 for `bigint` and `[10, 0]` for `decimal` |
| `Importer.SchemaSize` | lib/miguel/schema.rb:135-140 | the schema side implies 255, 20 and `[10, 0]` |
| `Importer.SizeOfSized` | lib/miguel/importer.rb:82-83 | the first parenthesised number is the size |
| `Importer.SizeAfterName` | lib/miguel/importer.rb:82-83 | `name(n)…` has size `n` |
| `Importer.NotMysql` | lib/miguel/importer.rb:47-58 | a type starting with another letter matches no MySQL pattern |
| `Importer.NoSizeInList` | lib/miguel/importer.rb:81-86 | a quoted enum list has no size |
| `Importer.MysqlIntLiteral` | lib/miguel/importer.rb:48-49 | `int(n)` is an integer, sized only when `n` is not 11 |
| `Importer.UnsignedPatterns` | lib/miguel/importer.rb:50-51 | `int(n) unsigned` reverts to integer, unsigned, implied size 10 |
| `Importer.MysqlUnsignedLiteral` | lib/miguel/importer.rb:50-51 | an unsigned integer, sized only when `n` is not 10 |
| `Importer.MysqlBigintLiteral` | lib/miguel/importer.rb:52-53 | `bigint(n)` is a bigint, sized only when `n` is not 20 |
| `Importer.VarcharLiteral` | lib/miguel/importer.rb:62-63 | `varchar(n)` is a string, sized only when `n` is not 255 |
| `Importer.CharPatterns` | lib/miguel/importer.rb:64-65 | `char(…)` reverts to a fixed string with implied size 255 |
| `Importer.CharLiteral` | lib/miguel/importer.rb:64-65 | a fixed string, sized only when `n` is not 255 |
| `Importer.BooleanLiteral` | lib/miguel/importer.rb:43 | `tinyint(n)` hinted boolean is a boolean, sized only when `n` is not 1 |
| `Importer.EnumPatterns` | lib/miguel/importer.rb:56-57 | `enum(…)`/`set(…)` reverts to that kind with the parsed elements |
| `Importer.EnumLiteral` | lib/miguel/importer.rb:56-57 | a quoted list of elements comes back as exactly those elements, as strings, with no size |
| `TableImport.KeyArguments` | lib/miguel/importer.rb:117-121 | columns and target table are taken out; the rest, without name, are the options |
| `TableImport.ForeignKeyIndexes` | lib/miguel/importer.rb:105 | exactly the column lists of single-column keys |
| `TableImport.IndexArguments` | lib/miguel/importer.rb:107-108 | the columns are taken out and the other options are kept |
| `TableImport.KeptIndexes` | lib/miguel/importer.rb:106-111 | skipping indexes never adds any |
| `TableImport.DefaultConstant` | lib/miguel/importer.rb:126-129 | exactly the two listed defaults are mapped, both to truthy values |
| `TableImport.TypedOptions` | lib/miguel/importer.rb:153-161 | ignored options and the two type fields leave; the reverted type options are merged in |
| `TableImport.NullAndDefault` | lib/miguel/importer.rb:165-176 | `:allow_null` becomes `:null`; the mapped default is set only when not nil |
| `TableImport.KeyCall` | lib/miguel/importer.rb:180-191 | an auto-increment single key becomes `primary_key` with its type; another single key keeps `:primary_key`; else a plain column |
| `TableImport.PrimaryKeyNames` | lib/miguel/importer.rb:141 | no more key names than columns |
| `TableImport.ImportForeignKeys` | lib/miguel/importer.rb:115-123 | the table ends up as after adding every reported key in order, stopping at a failure |
| `TableImport.ImportIndexes` | lib/miguel/importer.rb:102-112 | the kept indexes are appended in order |
| `TableImport.ImportColumns` | lib/miguel/importer.rb:136-200 | every column is added in order, then the compound key when there is one |
| `TableImport.AddColumnsThenKey` | lib/miguel/importer.rb:147-199 | the column loop, then the compound key only if every column was added |
| `TableImport.AddColumns` | lib/miguel/importer.rb:147-192 | the column loop adds in order and stops at the first failure |
| `TableImport.AddCompoundKey` | lib/miguel/importer.rb:197-199 | a multi-column key adds a `primary_key` column over the key names |
| `TableImport.ImportTable` | lib/miguel/importer.rb:203-208 | foreign keys, then indexes, then columns |
| `TableImport.ImportedColumnIs` | lib/miguel/importer.rb:147-192 | each column's type, exactly the value the type literal reverts to (symbol or string), and the meaning of its options, by primary key case |
| `TableImport.KeyCallMap` | lib/miguel/importer.rb:180-191 | the three primary key cases in terms of the options' meaning |
| `ImportProperties.DefaultRules` | lib/miguel/importer.rb:172 | a zero date becomes 0, `CURRENT_TIMESTAMP` the auto-update literal, anything else the Ruby default when there is one |
| `ImportProperties.PlainOptionsHold` | lib/miguel/importer.rb:149-176 | `:null` is the reported nullability; the default is present exactly when not nil; type options win; consumed keys are gone; others are kept |
| `ImportProperties.NoKeyOptionsForCompoundKey` | lib/miguel/importer.rb:183-191 | with a compound key no column keeps a `:primary_key` option |
| `ImportProperties.ImportedColumnNames` | lib/miguel/importer.rb:147-191 | the columns keep the reported names in order |
| `ImportProperties.PrimaryKeyNamesAre` | lib/miguel/importer.rb:141 | the key names are exactly the names of columns reported with a truthy `:primary_key` |
| `ImportProperties.ColumnsImportedAre` | lib/miguel/importer.rb:136-200 | over distinct names, the result adds the imported columns and then the compound key |
| `ImportProperties.KeyAfterColumns` | lib/miguel/importer.rb:197-199 | the compound key is added after the columns, or not at all after a failure |
| `ImportProperties.KeptIndexesAre` | lib/miguel/importer.rb:106-111 | the imported indexes are exactly the reported ones that are not automatic key indexes |
| `ImportProperties.UniqueIndexKept` | lib/miguel/importer.rb:109 | a unique index is never skipped |
| `ImportProperties.FoldKeys` | lib/miguel/importer.rb:116-122 | with list columns every reported key is appended and nothing fails |
| `ImportProperties.ForeignKeysImportedAre` | lib/miguel/importer.rb:115-123 | the keys are appended in the reported order and the import passes |
| `ImportProperties.ForeignKeyIndexNotImported` | lib/miguel/importer.rb:103-109 | a non-unique index named after a single-column key's column is skipped |
| `ImportProperties.KeyIndexListed` | lib/miguel/importer.rb:105 | every single-column key contributes its column list |
| `ImportProperties.UniqueOptionKept` | lib/miguel/importer.rb:107-109 | dropping `:columns` does not change `:unique` |
| `ImportProperties.TableImportedIs` | lib/miguel/importer.rb:203-208 | the whole table import: keys, kept indexes, then columns and the compound key |
| `ImportProperties.KeysThenColumns` | lib/miguel/importer.rb:203-208 | when the keys import, the result is the column import over the key and index import |

## Left out

- The table DSL itself is left out, because it is Ruby metaprogramming. That covers `Context`, `method_missing` and the methods generated from `GENERIC_TYPES`. A table block is modelled as the sequence of statements it sends to `add_definition`.
- `Schema#define` does not evaluate the schema block, because Dafny has no closures over the schema. `hasBlock` stands for whether a block was given. The block's effect is whatever calls it would make to `AddTable` and the other methods.
- `Table#define` is not modelled separately: `AddDefinitions` runs the block's statements directly. Its missing-block error is not modelled.
- `Schema.load` and class-level `Schema.define` are left out. They are file I/O and `Kernel.load` and a global variable.
- Callbacks are not closures. A callback is a name: the standard integer-unless-compound callback, or one that changes nothing. So user callbacks that do anything else are not modelled.
- `primary_key_constraint?` is not defined in the sources modelled. `dump_drop_columns` therefore takes it as a parameter `pk`.
- Entities.Downcase: only ASCII letters are lower-cased, where Ruby's `downcase` also folds other letters; type names are ASCII.
- Dumper.Dumper.constructor: the buffer is a value the dumper starts from, not an array it shares with the caller; the caller reads the lines back from the dumper instead, as `CustomBufferExample` does.
- Dumper.Dumper.Dump: takes the line as a string. Ruby interpolates any object, and a caller passing another value passes its `ToS`, as `NonStringExample` does. Floats such as `0.5` are not modelled.
- `Sequel.lit` literals are a value of their own (`Lit`). In Ruby a literal string is `==` to a plain string with the same text. The model keeps them apart.
- `out_value` is a simplified `inspect`. Strings are quoted without escaping and symbols are printed as `:name` without quoting. Floats, and bigdecimals through `inspect`, are not modelled.
- `db.database_type` is a string and the database records are parameters, because database access is I/O. A `db_type` that is not a string is read as the empty type.
- `Importer#schema` is left out; it is the loop over `db.tables` that skips `IGNORED_TABLES` and imports each table. Only its per-table body, `import_table`, is modelled. The `command.rb` command line is not part of this model.
- `import_columns` computes each column's `add_column` call from its record, then adds the columns in order. The source interleaves computing and adding. This is the same, because computing a call does not read the table.
- ImportProperties.ForeignKeysImportedAre is stated only for records whose `:columns` is a list, which is what Sequel reports. A scalar column name would also add a column.
- The Schema methods state their effect over `old(Data())` and the table list. They do not state that other objects are untouched, because tables are the only objects they allocate or mutate.
- `ForeignKey#initialize` writes the wrapped `:key` back into the caller's hash. The model returns the wrapped hash, and `add_foreign_key` uses it for both the column and the key. The aliasing itself is not modelled.
- A nil `ruby_type` hint is not modelled separately: `Nil` is one more option value.
- `each_pair` raises a `RuntimeError` on a mismatched pair. Here that is a `PairingMismatch` outcome carrying the index. `ChangedColumnsPair` and `Compare` show that `changes` never reaches it.
