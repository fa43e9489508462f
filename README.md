# go-mysql-orm: the `Migrate` table generator

This project models the schema-migration path of `orm/migrate.go`. It covers how `Migrate` turns
the first registered table into a `create table IF NOT EXISTS` statement:

- `getMigrateColumns` walks the struct fields.
  - It drops fields that are not settable (e.g. unexported), fields named `""` or `"-"`, and fields behind two pointer levels.
  - It picks each column's SQL type and default (`getTypeAndDefault`).
  - It applies the conventions: field 0 is the primary key, and is auto-increment when its default is `"0"`. The `created_at`, `updated_at` and `deleted_at` columns are timestamps.
  - It applies the `comment` and `default` tags, then the `orm` tag's modifier tokens.
  - Finally it settles the null default and quotes every default that is not one of the bare keywords.
- `generateColumnStrings` renders one clause per column. It then adds the last primary key, the simple unique keys and indexes, and one clause per composite group.
- `Migrate` checks for a database handle, a table and at least one column. It joins the clauses into the statement and hands it to the handle.

Structure:

- `column_model.dfy` holds the constants, the column record `dBColumn`, the field descriptor and `getTypeAndDefault`.
- `resolve.dfy` holds `getMigrateColumns`:
  - specification functions, one per stage of the loop body;
  - the imperative loop and its per-stage methods, each proved equal to its stage function;
  - lemmas about what the stages yield.
- `render.dfy` holds `generateColumnStrings` the same way. Composite groups are a table of (group, members) pairs in first-seen order.
- `migration.dfy` holds `Migrate`.
- `example.dfy` derives the full statement for a four-field struct.
- `text.dfy` and `wrappers.dfy` give lower-casing, prefix tests, joining and `Option`.

Behaviour of the code that the model keeps as written:

- The primary-key convention belongs to struct index 0. It does not move to the first field that survives. If field 0 is skipped, no column gets it.
- Any `orm` token that is not a flag or a key name becomes the type override. That includes an empty token, such as the one a trailing comma leaves. An empty token cancels an earlier override, because an empty override is ignored.
- A non-empty `orm` name replaces the nullable, auto-increment and primary flags with exactly the ones its tokens name. This also applies to a pointer field and to `deleted_at`.
- A `deleted_at` column with such an `orm` name and no `null` token keeps the default `Null`, unquoted, after `not null`.
- A composite group's name is the whole token, e.g. `unique_ab`, with no prefix stripped.

## Model

| member | source | states |
|---|---|---|
| ColumnModel.TypeAndDefault | orm/migrate.go:256-299 | The default is `"0"` exactly for the bool and integer kinds. The type is `timestamp` exactly for `time.Time`, plain or behind one pointer. The type is `varchar(255)` exactly for strings and every unnamed kind. |
| ColumnModel.UnsignedTypesExtendSigned | orm/migrate.go:263-286 | Each unsigned kind maps to its signed counterpart's type plus ` unsigned`. `bool` maps exactly like `int8`. |
| ColumnModel.SinglePointerMapsAsPointee | orm/migrate.go:258-261 | A field behind one pointer gets the same type and default as its pointee kind. |
| Resolve.ResolveField | orm/migrate.go:142-166 | A field yields no column exactly when the loop skips it: not settable (e.g. unexported), named `""` or `"-"`, or a pointer to a pointer. |
| Resolve.GetMigrateColumns | orm/migrate.go:137-254 | The loop returns exactly the column sequence of the resolution functions, field by field. |
| Resolve.ResolveFieldAt | orm/migrate.go:139-250 | One loop iteration returns the resolved column, or nothing for a skipped field. |
| Resolve.BookkeepingAt | orm/migrate.go:177-187 | The `created_at`/`updated_at`/`deleted_at` branch sets type and default per name and makes `deleted_at` nullable. Other names are left unchanged. |
| Resolve.CustomDefaultAt | orm/migrate.go:189-200 | A non-empty `default` tag replaces the default. On a bool, `true`/`false` in any case become `1`/`0`. |
| Resolve.ApplyModifierTokens | orm/migrate.go:202-238 | The token loop yields the stage function of the tokens after the name. |
| Resolve.ApplyModifierToken | orm/migrate.go:209-229 | One token updates the override record or the key fields, as its class says. |
| Resolve.FinishDefaultAt | orm/migrate.go:240-248 | A nullable column without a `default` tag gets `null`. Any default outside the bare keywords is then quoted. |
| Resolve.QuoteDefault | orm/migrate.go:246-248 | The result is never empty. A bare keyword in any case is kept. Anything else, the empty default included, is wrapped in single quotes with its text unchanged. |
| Resolve.ClassifyMeaning | orm/migrate.go:209-229 | Each token class is characterised both ways: `null`, `auto_increment`, `primary*`, `unique`, `unique*`, `index`, `index*`, and the rest as a type. Group names and types keep the whole token. |
| Resolve.FlagModifiers | orm/migrate.go:209-226 | Each flag (null, auto-increment, primary, unique, index) is set exactly when a token naming it occurs. |
| Resolve.GroupModifiers | orm/migrate.go:215-226 | The unique and index groups are exactly the tokens that extend `unique`/`index`, in tag order. |
| Resolve.TypeModifiers | orm/migrate.go:227-237 | The type override is the last token that is not a flag or key name. |
| Resolve.ModifierTokensDecide | orm/migrate.go:202-238 | With an `orm` name, the flags come exactly from the tokens, and so do the groups. The type is the last type token if non-empty, else the earlier type. |
| Resolve.ConventionWithoutOrmName | orm/migrate.go:159-175 | Without an `orm` name: primary iff struct index 0; auto-increment iff index 0 and an integer kind; nullable iff a pointer or `deleted_at`; no key flags or groups. |
| Resolve.PreModifierFacts | orm/migrate.go:146-187 | Before the modifier tokens: name and comment come from the tags; primary iff struct index 0; auto-increment iff index 0 and an integer kind; nullable iff a pointer or `deleted_at`; no keys. The type is `timestamp` for the three bookkeeping names, else the mapped kind's type. |
| Resolve.ResolvedColumnBasics | orm/migrate.go:146-153 | The column is named by the `orm` name, else the `json` name. Its comment is the `comment` tag. Its final default is never empty. |
| Resolve.BookkeepingColumns | orm/migrate.go:177-187 | Without a type token, the bookkeeping columns are `timestamp`. Without a `default` tag: `created_at` defaults to `CURRENT_TIMESTAMP`, `updated_at` to the on-update form, both when not null. `deleted_at` without an `orm` name is nullable with default `null`. With an `orm` name but no `null` token it is not null and keeps the bare default `Null`. |
| Resolve.BareTimestampDefaults | orm/migrate.go:20 | The three bookkeeping defaults (`CURRENT_TIMESTAMP`, its on-update form, and `deleted_at`'s `Null`) lower-case to members of the bare-default list, so they are never quoted. So does the null default `null`. |
| Resolve.CustomDefaultWins | orm/migrate.go:190-200 | With a `default` tag, the final default is `'1'`/`'0'` for bool `true`/`false`, else that tag quoted per the keyword rule. Nullability does not override it. |
| Resolve.ResolvedDefault | orm/migrate.go:240-248 | The final default is `null` (if nullable without a `default` tag) or the pre-modifier default, passed through the quoting rule. |
| Resolve.DefaultFinalised | orm/migrate.go:240-248 | A nullable column without a `default` tag ends with `null`. Every final default is a bare keyword or single-quoted. |
| Resolve.KeptIsSurvivingIndices | orm/migrate.go:139-166 | The surviving field indices are exactly those not skipped, in ascending order. |
| Resolve.ColumnsAreKeptFields | orm/migrate.go:137-254 | The k-th column is the resolution of the k-th surviving field, at its struct index. |
| Resolve.PrimaryColumns | orm/migrate.go:170-238 | A column is primary iff: without an `orm` name, its struct index is 0; with one, a `primary*` token occurs. |
| Render.GenerateColumnStrings | orm/migrate.go:63-135 | Column clauses in column order, then the primary clause, simple unique keys, simple indexes, composite unique keys, composite indexes. |
| Render.AppendKeySection | orm/migrate.go:118-133 | The tail appends the primary clause if any, then the four key lists, in that order. |
| Render.AppendCompositeClauses | orm/migrate.go:128-133 | One clause per composite group, in table order, listing its members joined by commas. |
| Render.ColumnWordsOf | orm/migrate.go:72-95 | The words of one column equal the column-word function. |
| Render.AutoIncrementHasNoDefault | orm/migrate.go:72-95 | Words are: quoted name, type, `null`/`not null`. Auto-increment emits `auto_increment` in place of any default word. Otherwise a non-empty default gives `default …`. A non-empty comment comes last. Empty defaults and comments add no word. |
| Render.AddMember | orm/migrate.go:107 | Adding a member to a group appends it to that group only. A new group is added at the end of the key order. |
| Render.AddMemberToAll | orm/migrate.go:105-115 | The inner loop adds the column to each of its groups, in tag order. |
| Render.AppendAll | orm/migrate.go:121-127 | Appending a list keeps the list's order after the existing clauses. |
| Render.PrimaryClauseIsLastPrimary | orm/migrate.go:97-120 | There is no primary clause iff no column is primary. Otherwise the clause names the last primary column. |
| Render.SimpleKeyClausesMembers | orm/migrate.go:97-103 | A simple unique clause exists exactly for the non-primary unique columns. A simple index clause exists exactly for the columns that are neither primary nor unique but indexed. |
| Render.SimpleKeyClausesInColumnOrder | orm/migrate.go:97-103 | The simple unique and index clauses come in column order: those of the first n columns are a prefix of those of all columns. |
| Render.CompositeGroupsAreMembers | orm/migrate.go:105-115 | Each group lists the columns naming it, in column order and with repeats. The groups are exactly the names used. No group appears twice. |
| Migration.Migrate | orm/migrate.go:37-61 | No handle: `no db exist`. No table, no ORM fields, nil table or empty name: `no table exist`. No surviving column: `no column exist`. On each of these three errors the handle is never given a statement. Otherwise the handle runs exactly the statement for the first table, which is returned with the handle's error. |
| Migration.StatementShape | orm/migrate.go:53-57 | The statement starts `create table IF NOT EXISTS` with the backquoted name and ends with `)`. Its first clauses are the column clauses, in order. |
| ExampleTable.ExampleStatement | orm/migrate.go:37-61 | For the `id`, `name`, `created_at`, `*deleted_at` struct, the statement has its four column clauses and a primary key on `id`. Only `name` gets a quoted empty default. |

## Left out

- Reflection is not modelled. A field is given by a descriptor: settable, kind, pointer depth and its split tags.
- `getTags` is not part of this model. Each tag is given as its comma-split tokens, with at least one token.
- `SliceContain`, `DB()` and `TableName()` are not part of this model. The table name comes as an optional string, and the registered ORM fields as a count.
- Running the statement is a function from the statement to an optional error string. The database and its effects are outside the model.
- ColumnModel.TypeAndDefault models a pointer field by its declared pointee kind, as if the pointer were non-nil. The code inspects the pointer's current value, so on a nil pointer `Elem()` yields no kind, and the model misses three consequences:
  - a nil `*int64` (or other integer or bool pointer) maps to `varchar(255)` with no default instead of its integer type and `"0"`, so at struct index 0 it gets no `auto_increment`;
  - a nil `**T` is not skipped, because its element kind is not a pointer; it becomes a nullable column;
  - a nil `*bool` with a `default` tag skips the `true`/`false` to `1`/`0` normalisation.
- Text.Lower lower-cases ASCII letters only. Go's `strings.ToLower` also folds other Unicode letters.
- Render.GenerateColumnStrings emits composite groups in first-seen order. Go iterates its maps in unspecified order, so the model fixes one of the orders the code allows. Render.AddMember keeps that first-seen order.
- No claim is made about SQL escaping: names, types, defaults and comments are pasted in as given, as the code does.
- Only the first registered table is migrated, as in the code. The other tables are never looked at.
