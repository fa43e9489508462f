/** The column record, the field descriptors that replace reflection, the
    constant tables and the kind-to-SQL-type mapping of orm/migrate.go. */
module ColumnModel {

  const PrimaryKeyPrefix := "primary"
  const UniqueKeyPrefix := "unique"
  const KeyPrefix := "index"
  const NullPrefix := "null"
  const AutoIncrementPrefix := "auto_increment"
  const CreatedAtColumn := "created_at"
  const UpdatedAtColumn := "updated_at"
  const DeletedAtColumn := "deleted_at"

  /** The fixed defaults of the `created_at` and `updated_at` columns. */
  const CurrentTimestamp := "CURRENT_TIMESTAMP"
  const CurrentTimestampOnUpdate := CurrentTimestamp + " ON UPDATE " + CurrentTimestamp

  /** Defaults that are emitted bare (compared after lower-casing). */
  const DefinedDefault: seq<string> :=
    ["null", "current_timestamp", "current_timestamp" + " on update " + "current_timestamp"]

  /** The kind of a field once its pointer levels are stripped. `Time` is the
      struct `time.Time`; `Other` is every kind the type mapping does not name
      (floats, slices, other structs, ...). */
  datatype Kind =
    | Bool | Int | Int8 | Int16 | Int32 | Int64
    | Uint | Uint8 | Uint16 | Uint32 | Uint64
    | String | Time | Other

  /** One struct field as the migration sees it: whether it is settable
      (exported), its pointee kind, how many pointer levels wrap it, and the
      comma-separated tokens of its `orm`, `json`, `comment` and `default` tags. */
  datatype FieldDesc = FieldDesc(
    settable: bool,
    kind: Kind,
    ptrDepth: nat,
    ormTags: seq<string>,
    jsonTags: seq<string>,
    commentTags: seq<string>,
    defaultTags: seq<string>)

  /** The tag reader always yields at least one token (an empty one for a
      missing tag), so token 0 is always there. */
  predicate TagsPresent(f: FieldDesc) {
    |f.ormTags| > 0 && |f.jsonTags| > 0 && |f.commentTags| > 0 && |f.defaultTags| > 0
  }

  /** `dBColumn`. */
  datatype Column = Column(
    name: string,
    sqlType: string,
    nullable: bool,
    autoIncrement: bool,
    primary: bool,
    unique: bool,
    index: bool,
    defaultValue: string,
    comment: string,
    indexGroups: seq<string>,
    uniqueGroups: seq<string>)

  /** The zero value `dBColumn{}`. */
  const EmptyColumn := Column("", "", false, false, false, false, false, "", "", [], [])

  /** Kinds mapped to an integer column type (with default "0"). */
  predicate IsIntegerLike(k: Kind) {
    !(k.String? || k.Time? || k.Other?)
  }

  /** `getTypeAndDefault`: SQL type and base default of a field. A single
      pointer is mapped as its pointee; under two or more levels the element
      kind is itself a pointer, which lands in the fallback case. */
  function TypeAndDefault(kind: Kind, ptrDepth: nat): (r: (string, string))
    ensures r.1 == (if ptrDepth <= 1 && IsIntegerLike(kind) then "0" else "")
    ensures r.0 == "timestamp" <==> ptrDepth <= 1 && kind == Time
    ensures r.0 == "varchar(255)" <==> ptrDepth >= 2 || kind == String || kind == Other
  {
    if ptrDepth >= 2 then ("varchar(255)", "")
    else
      match kind
      case Bool | Int8 => ("tinyint", "0")
      case Int16 => ("smallint", "0")
      case Int | Int32 => ("int", "0")
      case Int64 => ("bigint", "0")
      case Uint8 => ("tinyint unsigned", "0")
      case Uint16 => ("smallint unsigned", "0")
      case Uint | Uint32 => ("int unsigned", "0")
      case Uint64 => ("bigint unsigned", "0")
      case String => ("varchar(255)", "")
      case Time => ("timestamp", "")
      case Other => ("varchar(255)", "")
  }

  /** Each unsigned kind maps to the type of its signed counterpart plus
      " unsigned"; Bool maps like Int8. */
  lemma UnsignedTypesExtendSigned(d: nat)
    requires d <= 1
    ensures TypeAndDefault(Uint8, d).0 == TypeAndDefault(Int8, d).0 + " unsigned"
    ensures TypeAndDefault(Uint16, d).0 == TypeAndDefault(Int16, d).0 + " unsigned"
    ensures TypeAndDefault(Uint, d).0 == TypeAndDefault(Int, d).0 + " unsigned"
    ensures TypeAndDefault(Uint32, d).0 == TypeAndDefault(Int32, d).0 + " unsigned"
    ensures TypeAndDefault(Uint64, d).0 == TypeAndDefault(Int64, d).0 + " unsigned"
    ensures TypeAndDefault(Bool, d) == TypeAndDefault(Int8, d)
  {
  }

  /** A single pointer is mapped exactly as the value it points to. */
  lemma SinglePointerMapsAsPointee(k: Kind)
    ensures TypeAndDefault(k, 1) == TypeAndDefault(k, 0)
  {
  }
}
