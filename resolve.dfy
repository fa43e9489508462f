/** Column resolution (`getMigrateColumns`): which fields become columns and
    what each column's name, type, flags, default and key groups are. The
    stages are specification functions; `GetMigrateColumns` computes the same
    columns the way the source does, by mutating one record per field. */
module Resolve {
  import opened Wrappers
  import opened Text
  import opened ColumnModel

  /** Token 0 of the `orm` tag if non-empty, else token 0 of the `json` tag. */
  function FieldName(f: FieldDesc): string
    requires TagsPresent(f)
  {
    if f.ormTags[0] != "" then f.ormTags[0] else f.jsonTags[0]
  }

  /** A field is skipped when it is not settable, its name is empty or "-",
      or it is a pointer to a pointer. */
  predicate Dropped(f: FieldDesc)
    requires TagsPresent(f)
  {
    !f.settable || FieldName(f) == "" || FieldName(f) == "-" || f.ptrDepth >= 2
  }

  // ---------------------------------------------------------------------
  // Modifier tokens (`orm` tokens 1 and up)
  // ---------------------------------------------------------------------

  /** What one modifier token means. */
  datatype Modifier =
    | NullFlag
    | AutoIncrementFlag
    | PrimaryFlag
    | UniqueFlag
    | UniqueGroup(group: string)
    | IndexFlag
    | IndexGroup(group: string)
    | TypeOverride(sqlType: string)

  /** The token tests in the order the source applies them. */
  function Classify(tok: string): Modifier {
    if tok == NullPrefix then NullFlag
    else if tok == AutoIncrementPrefix then AutoIncrementFlag
    else if HasPrefix(tok, PrimaryKeyPrefix) then PrimaryFlag
    else if HasPrefix(tok, UniqueKeyPrefix) then
      (if tok == UniqueKeyPrefix then UniqueFlag else UniqueGroup(tok))
    else if HasPrefix(tok, KeyPrefix) then
      (if tok == KeyPrefix then IndexFlag else IndexGroup(tok))
    else TypeOverride(tok)
  }

  function Modifiers(toks: seq<string>): seq<Modifier> {
    seq(|toks|, k requires 0 <= k < |toks| => Classify(toks[k]))
  }

  /** Names of the composite unique (`unique`) or index (`!unique`) groups, in order. */
  function GroupNames(mods: seq<Modifier>, unique: bool): seq<string>
    decreases |mods|
  {
    if |mods| == 0 then []
    else
      GroupNames(mods[..|mods| - 1], unique) +
      match mods[|mods| - 1]
      case UniqueGroup(g) => if unique then [g] else []
      case IndexGroup(g) => if unique then [] else [g]
      case _ => []
  }

  /** The text of the last type override, or "" when there is none. */
  function LastTypeOverride(mods: seq<Modifier>): string
    decreases |mods|
  {
    if |mods| == 0 then ""
    else if mods[|mods| - 1].TypeOverride? then mods[|mods| - 1].sqlType
    else LastTypeOverride(mods[..|mods| - 1])
  }

  // ---------------------------------------------------------------------
  // The stages of one field's resolution
  // ---------------------------------------------------------------------

  /** Name, nullability from the pointer, mapped type and default, and the
      primary/auto-increment convention for struct index 0. */
  function BaseColumn(i: nat, f: FieldDesc): Column
    requires TagsPresent(f)
  {
    var td := TypeAndDefault(f.kind, f.ptrDepth);
    EmptyColumn.(name := FieldName(f), nullable := f.ptrDepth == 1,
                 sqlType := td.0, defaultValue := td.1,
                 primary := i == 0, autoIncrement := i == 0 && td.1 == "0")
  }

  /** The bookkeeping columns: whether the column becomes nullable and its
      fixed default, or None for any other name. */
  function BookkeepingOf(name: string): Option<(bool, string)> {
    if name == CreatedAtColumn then Some((false, CurrentTimestamp))
    else if name == UpdatedAtColumn then Some((false, CurrentTimestampOnUpdate))
    else if name == DeletedAtColumn then Some((true, "Null"))
    else None
  }

  /** The bookkeeping columns get a timestamp type and a fixed default;
      `deleted_at` also becomes nullable. */
  function Bookkeeping(c: Column): Column {
    match BookkeepingOf(c.name)
    case None => c
    case Some(b) => c.(nullable := c.nullable || b.0, sqlType := "timestamp", defaultValue := b.1)
  }

  /** A Bool field's custom default "true"/"false" (any case) becomes "1"/"0". */
  function NormaliseDefault(kind: Kind, custom: string): string {
    if kind != Bool then custom
    else if Lower(custom) == "true" then "1"
    else if Lower(custom) == "false" then "0"
    else custom
  }

  function WithCustomDefault(c: Column, kind: Kind, custom: string): Column {
    if custom != "" then c.(defaultValue := NormaliseDefault(kind, custom)) else c
  }

  /** The modifier tokens: the three flags are replaced by what the tokens
      say, the simple key flags and the group lists are added to, and the type
      changes only when the last override is non-empty. */
  function WithModifiers(c: Column, toks: seq<string>): Column {
    var mods := Modifiers(toks);
    var o := OverrideOf(mods);
    GroupsAndKeys(c, mods).(nullable := o.nullable, autoIncrement := o.autoIncrement, primary := o.primary,
                            sqlType := if o.sqlType != "" then o.sqlType else c.sqlType)
  }

  /** The flags and type collected in `overideColumn`: a flag is set exactly
      when its token occurs; the type is the last override's text. */
  function OverrideOf(mods: seq<Modifier>): Column {
    EmptyColumn.(nullable := NullFlag in mods, autoIncrement := AutoIncrementFlag in mods,
                 primary := PrimaryFlag in mods, sqlType := LastTypeOverride(mods))
  }

  /** What the tokens add to the column itself: the simple key flags and the
      composite group names. */
  function GroupsAndKeys(c: Column, mods: seq<Modifier>): Column {
    c.(unique := c.unique || UniqueFlag in mods,
       index := c.index || IndexFlag in mods,
       uniqueGroups := c.uniqueGroups + GroupNames(mods, true),
       indexGroups := c.indexGroups + GroupNames(mods, false))
  }

  /** One token's effect on `overideColumn`. */
  function OverrideWith(o: Column, m: Modifier): Column {
    match m
    case NullFlag => o.(nullable := true)
    case AutoIncrementFlag => o.(autoIncrement := true)
    case PrimaryFlag => o.(primary := true)
    case TypeOverride(t) => o.(sqlType := t)
    case _ => o
  }

  /** One token's effect on the column's own key flags and group lists. */
  function KeysWith(c: Column, m: Modifier): Column {
    match m
    case UniqueFlag => c.(unique := true)
    case UniqueGroup(g) => c.(uniqueGroups := c.uniqueGroups + [g])
    case IndexFlag => c.(index := true)
    case IndexGroup(g) => c.(indexGroups := c.indexGroups + [g])
    case _ => c
  }

  /** A default is emitted bare when it case-insensitively equals one of
      `DefinedDefault`. */
  predicate IsBareDefault(d: string) {
    Lower(d) in DefinedDefault
  }

  /** Default quoting: bare SQL literals stay, everything else (including
      the empty string) is wrapped in single quotes. */
  function QuoteDefault(d: string): (r: string)
    ensures r != ""
    ensures IsBareDefault(d) ==> r == d
    ensures !IsBareDefault(d) ==>
      |r| == |d| + 2 && r[0] == '\'' && r[|r| - 1] == '\'' && r[1..|r| - 1] == d
  {
    if d == "" || Lower(d) !in DefinedDefault then
      assert d == "" ==> Lower(d) != DefinedDefault[2];
      "'" + d + "'"
    else d
  }

  /** The column before the modifier tokens are applied. */
  function PreModifierColumn(i: nat, f: FieldDesc): Column
    requires TagsPresent(f)
  {
    WithCustomDefault(Bookkeeping(BaseColumn(i, f)).(comment := f.commentTags[0]), f.kind, f.defaultTags[0])
  }

  /** The column after the modifier tokens, which apply only when `orm`
      token 0 is non-empty. */
  function ModifiedColumn(i: nat, f: FieldDesc): Column
    requires TagsPresent(f)
  {
    var c := PreModifierColumn(i, f);
    if f.ormTags[0] != "" then WithModifiers(c, f.ormTags[1..]) else c
  }

  /** A nullable column without a custom default gets "null"; then the
      default is quoted. */
  function FinishDefault(c: Column, custom: string): Column {
    var d := if c.nullable && custom == "" then "null" else c.defaultValue;
    c.(defaultValue := QuoteDefault(d))
  }

  /** The column of field `f` at struct index `i`, or None if it is dropped. */
  function ResolveField(i: nat, f: FieldDesc): (r: Option<Column>)
    requires TagsPresent(f)
    ensures r.None? <==> Dropped(f)
  {
    if Dropped(f) then None else Some(FinishDefault(ModifiedColumn(i, f), f.defaultTags[0]))
  }

  predicate AllTagsPresent(fields: seq<FieldDesc>) {
    forall j :: 0 <= j < |fields| ==> TagsPresent(fields[j])
  }

  /** The columns of all fields, in field order. */
  function Columns(fields: seq<FieldDesc>): seq<Column>
    requires AllTagsPresent(fields)
    decreases |fields|
  {
    if |fields| == 0 then []
    else
      var n := |fields| - 1;
      Columns(fields[..n]) + match ResolveField(n, fields[n]) case Some(c) => [c] case None => []
  }

  /** Struct indices of the fields that are not dropped, ascending. */
  function Kept(fields: seq<FieldDesc>): seq<nat>
    requires AllTagsPresent(fields)
    decreases |fields|
  {
    if |fields| == 0 then []
    else
      var n := |fields| - 1;
      Kept(fields[..n]) + if Dropped(fields[n]) then [] else [n]
  }

  // ---------------------------------------------------------------------
  // The imperative resolution loop
  // ---------------------------------------------------------------------

  lemma ModifiersSnoc(toks: seq<string>, k: nat)
    requires 1 <= k < |toks|
    ensures Modifiers(toks[1..k + 1]) == Modifiers(toks[1..k]) + [Classify(toks[k])]
  {
  }

  lemma ModifierStep(mods: seq<Modifier>, m: Modifier)
    ensures GroupNames(mods + [m], true) ==
      GroupNames(mods, true) + if m.UniqueGroup? then [m.group] else []
    ensures GroupNames(mods + [m], false) ==
      GroupNames(mods, false) + if m.IndexGroup? then [m.group] else []
    ensures LastTypeOverride(mods + [m]) == if m.TypeOverride? then m.sqlType else LastTypeOverride(mods)
  {
    assert (mods + [m])[..|mods|] == mods;
  }

  lemma OverrideStep(mods: seq<Modifier>, m: Modifier)
    ensures OverrideOf(mods + [m]) == OverrideWith(OverrideOf(mods), m)
  {
    ModifierStep(mods, m);
    assert NullFlag in mods + [m] <==> NullFlag in mods || m == NullFlag;
    assert AutoIncrementFlag in mods + [m] <==> AutoIncrementFlag in mods || m == AutoIncrementFlag;
    assert PrimaryFlag in mods + [m] <==> PrimaryFlag in mods || m == PrimaryFlag;
  }

  lemma GroupsAndKeysStep(c: Column, mods: seq<Modifier>, m: Modifier)
    ensures GroupsAndKeys(c, mods + [m]) == KeysWith(GroupsAndKeys(c, mods), m)
  {
    ModifierStep(mods, m);
    var u, x := GroupNames(mods, true), GroupNames(mods, false);
    assert UniqueFlag in mods + [m] <==> UniqueFlag in mods || m == UniqueFlag;
    assert IndexFlag in mods + [m] <==> IndexFlag in mods || m == IndexFlag;
    match m
    case UniqueGroup(g) =>
      assert GroupNames(mods + [m], false) == x;
      assert c.uniqueGroups + (u + [g]) == (c.uniqueGroups + u) + [g];
    case IndexGroup(g) =>
      assert GroupNames(mods + [m], true) == u;
      assert c.indexGroups + (x + [g]) == (c.indexGroups + x) + [g];
    case _ =>
      assert GroupNames(mods + [m], true) == u;
      assert GroupNames(mods + [m], false) == x;
  }

  lemma ColumnsSnoc(fields: seq<FieldDesc>, i: nat)
    requires AllTagsPresent(fields) && i < |fields|
    ensures AllTagsPresent(fields[..i]) && AllTagsPresent(fields[..i + 1])
    ensures Columns(fields[..i + 1]) ==
      Columns(fields[..i]) + match ResolveField(i, fields[i]) case Some(c) => [c] case None => []
  {
    assert fields[..i + 1][..i] == fields[..i];
  }

  /** `getMigrateColumns`: one pass over the struct fields, in order. */
  method GetMigrateColumns(fields: seq<FieldDesc>) returns (ret: seq<Column>)
    requires AllTagsPresent(fields)
    ensures ret == Columns(fields)
  {
    ret := [];
    for i := 0 to |fields|
      invariant ret == Columns(fields[..i])
    {
      ColumnsSnoc(fields, i);
      var column := ResolveFieldAt(i, fields[i]);
      if column.Some? {
        ret := ret + [column.value];
      }
    }
    assert fields[..|fields|] == fields;
  }

  /** The body of the loop of `getMigrateColumns` for struct field `i`:
      None where the source executes `continue`. */
  method ResolveFieldAt(i: nat, field: FieldDesc) returns (r: Option<Column>)
    requires TagsPresent(field)
    ensures r == ResolveField(i, field)
  {
    if !field.settable {
      return None;
    }
    var column := EmptyColumn;
    var ormTags := field.ormTags;
    if ormTags[0] != "" {
      column := column.(name := ormTags[0]);
    } else {
      column := column.(name := field.jsonTags[0]);
    }
    if column.name == "" || column.name == "-" {
      return None;
    }
    var kind := field.kind;
    if field.ptrDepth > 0 {
      if field.ptrDepth > 1 {
        return None;
      }
      column := column.(nullable := true);
    }
    var td := TypeAndDefault(field.kind, field.ptrDepth);
    column := column.(sqlType := td.0, defaultValue := td.1);
    if i == 0 {
      column := column.(primary := true);
      if column.defaultValue == "0" {
        column := column.(autoIncrement := true);
      }
    }
    assert column == BaseColumn(i, field);
    column := BookkeepingAt(column);
    assert column == Bookkeeping(BaseColumn(i, field));
    column := column.(comment := field.commentTags[0]);
    var customDefault := field.defaultTags[0];
    column := CustomDefaultAt(column, kind, customDefault);
    if ormTags[0] != "" {
      column := ApplyModifierTokens(column, ormTags);
    }
    assert column == ModifiedColumn(i, field);
    column := FinishDefaultAt(column, customDefault);
    return Some(column);
  }

  /** The `created_at`/`updated_at`/`deleted_at` adjustments. */
  method BookkeepingAt(column0: Column) returns (column: Column)
    ensures column == Bookkeeping(column0)
  {
    column := column0;
    if column.name == CreatedAtColumn {
      column := column.(sqlType := "timestamp", defaultValue := CurrentTimestamp);
    } else if column.name == UpdatedAtColumn {
      column := column.(sqlType := "timestamp", defaultValue := CurrentTimestampOnUpdate);
    } else if column.name == DeletedAtColumn {
      column := column.(nullable := true, sqlType := "timestamp", defaultValue := "Null");
    }
  }

  /** A non-empty `default` tag replaces the default (Bool "true"/"false" normalised). */
  method CustomDefaultAt(column0: Column, kind: Kind, customDefault: string) returns (column: Column)
    ensures column == WithCustomDefault(column0, kind, customDefault)
  {
    column := column0;
    if customDefault != "" {
      column := column.(defaultValue := customDefault);
      if kind == Bool {
        if Lower(customDefault) == "true" {
          column := column.(defaultValue := "1");
        } else if Lower(customDefault) == "false" {
          column := column.(defaultValue := "0");
        }
      }
    }
  }

  /** The null default and the quoting at the end of the loop body. */
  method FinishDefaultAt(column0: Column, customDefault: string) returns (column: Column)
    ensures column == FinishDefault(column0, customDefault)
  {
    column := column0;
    if column.nullable {
      if customDefault == "" {
        column := column.(defaultValue := "null");
      }
    }
    if column.defaultValue == "" || Lower(column.defaultValue) !in DefinedDefault {
      column := column.(defaultValue := "'" + column.defaultValue + "'");
    }
  }

  /** The loop over `orm` tokens 1 and up, with its `overideColumn`. */
  method ApplyModifierTokens(column0: Column, ormTags: seq<string>) returns (column: Column)
    requires |ormTags| > 0
    ensures column == WithModifiers(column0, ormTags[1..])
  {
    column := column0;
    var overrideColumn := EmptyColumn;
    ghost var mods: seq<Modifier> := [];
    for k := 1 to |ormTags|
      invariant mods == Modifiers(ormTags[1..k])
      invariant overrideColumn == OverrideOf(mods)
      invariant column == GroupsAndKeys(column0, mods)
    {
      ModifiersSnoc(ormTags, k);
      var v := ormTags[k];
      OverrideStep(mods, Classify(v));
      GroupsAndKeysStep(column0, mods, Classify(v));
      overrideColumn, column := ApplyModifierToken(overrideColumn, column, v);
      mods := mods + [Classify(v)];
    }
    assert ormTags[1..|ormTags|] == ormTags[1..];
    assert column == GroupsAndKeys(column0, Modifiers(ormTags[1..]));
    column := column.(nullable := overrideColumn.nullable,
                      autoIncrement := overrideColumn.autoIncrement,
                      primary := overrideColumn.primary);
    if overrideColumn.sqlType != "" {
      column := column.(sqlType := overrideColumn.sqlType);
    }
  }

  /** One pass of the token loop: the three flags and the type go to
      `overideColumn`, the simple key flags and groups to the column. */
  method ApplyModifierToken(override0: Column, column0: Column, v: string) returns (overrideColumn: Column, column: Column)
    ensures overrideColumn == OverrideWith(override0, Classify(v))
    ensures column == KeysWith(column0, Classify(v))
  {
    overrideColumn, column := override0, column0;
    if v == NullPrefix {
      assert Classify(v) == NullFlag;
      overrideColumn := overrideColumn.(nullable := true);
    } else if v == AutoIncrementPrefix {
      assert Classify(v) == AutoIncrementFlag;
      overrideColumn := overrideColumn.(autoIncrement := true);
    } else if HasPrefix(v, PrimaryKeyPrefix) {
      assert Classify(v) == PrimaryFlag;
      overrideColumn := overrideColumn.(primary := true);
    } else if HasPrefix(v, UniqueKeyPrefix) {
      if v == UniqueKeyPrefix {
        assert Classify(v) == UniqueFlag;
        column := column.(unique := true);
      } else {
        assert Classify(v) == UniqueGroup(v);
        column := column.(uniqueGroups := column.uniqueGroups + [v]);
      }
    } else if HasPrefix(v, KeyPrefix) {
      if v == KeyPrefix {
        assert Classify(v) == IndexFlag;
        column := column.(index := true);
      } else {
        assert Classify(v) == IndexGroup(v);
        column := column.(indexGroups := column.indexGroups + [v]);
      }
    } else {
      assert Classify(v) == TypeOverride(v);
      overrideColumn := overrideColumn.(sqlType := v);
    }
  }

  // ---------------------------------------------------------------------
  // The modifier tokens, read directly off the raw tokens
  // ---------------------------------------------------------------------

  /** Tokens that start with `p` but are longer than `p`, in order: the
      composite group names for p = "unique" or "index". */
  function PrefixedTokens(toks: seq<string>, p: string): seq<string>
    decreases |toks|
  {
    if |toks| == 0 then []
    else
      var t := toks[|toks| - 1];
      PrefixedTokens(toks[..|toks| - 1], p) + if HasPrefix(t, p) && t != p then [t] else []
  }

  /** A token that names no flag and no key: the source takes it as a type. */
  predicate IsTypeToken(t: string) {
    t != NullPrefix && t != AutoIncrementPrefix && !HasPrefix(t, PrimaryKeyPrefix)
    && !HasPrefix(t, UniqueKeyPrefix) && !HasPrefix(t, KeyPrefix)
  }

  /** The last type token, or "" when there is none. */
  function LastTypeToken(toks: seq<string>): string
    decreases |toks|
  {
    if |toks| == 0 then ""
    else if IsTypeToken(toks[|toks| - 1]) then toks[|toks| - 1]
    else LastTypeToken(toks[..|toks| - 1])
  }

  lemma PrefixHead(t: string, p: string)
    requires |p| > 0 && HasPrefix(t, p)
    ensures t[0] == p[0]
  {
    assert t[..|p|][0] == t[0];
  }

  /** What each token means, stated on the token itself. */
  lemma ClassifyMeaning(t: string)
    ensures Classify(t).NullFlag? <==> t == NullPrefix
    ensures Classify(t).AutoIncrementFlag? <==> t == AutoIncrementPrefix
    ensures Classify(t).PrimaryFlag? <==> HasPrefix(t, PrimaryKeyPrefix)
    ensures Classify(t).UniqueFlag? <==> t == UniqueKeyPrefix
    ensures Classify(t).UniqueGroup? <==> HasPrefix(t, UniqueKeyPrefix) && t != UniqueKeyPrefix
    ensures Classify(t).IndexFlag? <==> t == KeyPrefix
    ensures Classify(t).IndexGroup? <==> HasPrefix(t, KeyPrefix) && t != KeyPrefix
    ensures Classify(t).TypeOverride? <==> IsTypeToken(t)
    ensures Classify(t).UniqueGroup? || Classify(t).IndexGroup? ==> Classify(t).group == t
    ensures Classify(t).TypeOverride? ==> Classify(t).sqlType == t
  {
    if HasPrefix(t, PrimaryKeyPrefix) { PrefixHead(t, PrimaryKeyPrefix); }
    if HasPrefix(t, UniqueKeyPrefix) { PrefixHead(t, UniqueKeyPrefix); }
    if HasPrefix(t, KeyPrefix) { PrefixHead(t, KeyPrefix); }
  }

  lemma ModifiersPrefix(toks: seq<string>, n: nat)
    requires n <= |toks|
    ensures Modifiers(toks[..n]) == Modifiers(toks)[..n]
  {
  }

  /** The flag modifiers occur exactly when their token does. */
  lemma FlagModifiers(toks: seq<string>)
    ensures NullFlag in Modifiers(toks) <==> NullPrefix in toks
    ensures AutoIncrementFlag in Modifiers(toks) <==> AutoIncrementPrefix in toks
    ensures PrimaryFlag in Modifiers(toks) <==> exists t :: t in toks && HasPrefix(t, PrimaryKeyPrefix)
    ensures UniqueFlag in Modifiers(toks) <==> UniqueKeyPrefix in toks
    ensures IndexFlag in Modifiers(toks) <==> KeyPrefix in toks
  {
    NullFlagOccurs(toks);
    AutoIncrementFlagOccurs(toks);
    PrimaryFlagOccurs(toks);
    UniqueFlagOccurs(toks);
    IndexFlagOccurs(toks);
  }

  lemma PrimaryFlagOccurs(toks: seq<string>)
    ensures PrimaryFlag in Modifiers(toks) <==> exists t :: t in toks && HasPrefix(t, PrimaryKeyPrefix)
  {
    var mods := Modifiers(toks);
    if PrimaryFlag in mods {
      var k :| 0 <= k < |mods| && mods[k] == PrimaryFlag;
      ClassifyMeaning(toks[k]);
      assert toks[k] in toks;
    }
    if exists t :: t in toks && HasPrefix(t, PrimaryKeyPrefix) {
      var t :| t in toks && HasPrefix(t, PrimaryKeyPrefix);
      var k :| 0 <= k < |toks| && toks[k] == t;
      ClassifyMeaning(t);
      assert mods[k] == PrimaryFlag;
    }
  }

  lemma NullFlagOccurs(toks: seq<string>)
    ensures NullFlag in Modifiers(toks) <==> NullPrefix in toks
  {
    var mods := Modifiers(toks);
    if NullFlag in mods {
      var k :| 0 <= k < |mods| && mods[k] == NullFlag;
      ClassifyMeaning(toks[k]);
    }
    if NullPrefix in toks {
      var k :| 0 <= k < |toks| && toks[k] == NullPrefix;
      ClassifyMeaning(toks[k]);
      assert mods[k] == NullFlag;
    }
  }

  lemma AutoIncrementFlagOccurs(toks: seq<string>)
    ensures AutoIncrementFlag in Modifiers(toks) <==> AutoIncrementPrefix in toks
  {
    var mods := Modifiers(toks);
    if AutoIncrementFlag in mods {
      var k :| 0 <= k < |mods| && mods[k] == AutoIncrementFlag;
      ClassifyMeaning(toks[k]);
    }
    if AutoIncrementPrefix in toks {
      var k :| 0 <= k < |toks| && toks[k] == AutoIncrementPrefix;
      ClassifyMeaning(toks[k]);
      assert mods[k] == AutoIncrementFlag;
    }
  }

  lemma UniqueFlagOccurs(toks: seq<string>)
    ensures UniqueFlag in Modifiers(toks) <==> UniqueKeyPrefix in toks
  {
    var mods := Modifiers(toks);
    if UniqueFlag in mods {
      var k :| 0 <= k < |mods| && mods[k] == UniqueFlag;
      ClassifyMeaning(toks[k]);
    }
    if UniqueKeyPrefix in toks {
      var k :| 0 <= k < |toks| && toks[k] == UniqueKeyPrefix;
      ClassifyMeaning(toks[k]);
      assert mods[k] == UniqueFlag;
    }
  }

  lemma IndexFlagOccurs(toks: seq<string>)
    ensures IndexFlag in Modifiers(toks) <==> KeyPrefix in toks
  {
    var mods := Modifiers(toks);
    if IndexFlag in mods {
      var k :| 0 <= k < |mods| && mods[k] == IndexFlag;
      ClassifyMeaning(toks[k]);
    }
    if KeyPrefix in toks {
      var k :| 0 <= k < |toks| && toks[k] == KeyPrefix;
      ClassifyMeaning(toks[k]);
      assert mods[k] == IndexFlag;
    }
  }

  /** The group lists are the longer `unique…`/`index…` tokens, whole and in
      token order. */
  lemma {:induction false} GroupModifiers(toks: seq<string>)
    ensures GroupNames(Modifiers(toks), true) == PrefixedTokens(toks, UniqueKeyPrefix)
    ensures GroupNames(Modifiers(toks), false) == PrefixedTokens(toks, KeyPrefix)
    decreases |toks|
  {
    if |toks| > 0 {
      var n := |toks| - 1;
      GroupModifiers(toks[..n]);
      ModifiersPrefix(toks, n);
      ClassifyMeaning(toks[n]);
    }
  }

  /** The type override is the last type token. */
  lemma {:induction false} TypeModifiers(toks: seq<string>)
    ensures LastTypeOverride(Modifiers(toks)) == LastTypeToken(toks)
    decreases |toks|
  {
    if |toks| > 0 {
      var n := |toks| - 1;
      TypeModifiers(toks[..n]);
      ModifiersPrefix(toks, n);
      ClassifyMeaning(toks[n]);
    }
  }

  // ---------------------------------------------------------------------
  // Properties of one resolved column
  // ---------------------------------------------------------------------

  /** The column keeps the resolved name and the comment, and its default is
      never empty once quoted. */
  lemma ResolvedColumnBasics(i: nat, f: FieldDesc)
    requires TagsPresent(f) && !Dropped(f)
    ensures ResolveField(i, f).value.name == FieldName(f)
    ensures ResolveField(i, f).value.comment == f.commentTags[0]
    ensures ResolveField(i, f).value.defaultValue != ""
  {
    var c := PreModifierColumn(i, f);
    assert c.name == FieldName(f) && c.comment == f.commentTags[0] by {
      BookkeepingKeepsName(BaseColumn(i, f));
    }
    var m := ModifiedColumn(i, f);
    assert m.name == c.name && m.comment == c.comment;
    assert ResolveField(i, f).value == FinishDefault(m, f.defaultTags[0]);
  }

  lemma BookkeepingKeepsName(c: Column)
    ensures Bookkeeping(c).name == c.name && Bookkeeping(c).comment == c.comment
  {
  }

  /** What the column looks like before the modifier tokens. */
  lemma PreModifierFacts(i: nat, f: FieldDesc)
    requires TagsPresent(f) && !Dropped(f)
    ensures var c := PreModifierColumn(i, f);
      && c.name == FieldName(f) && c.comment == f.commentTags[0]
      && (c.primary <==> i == 0)
      && (c.autoIncrement <==> i == 0 && IsIntegerLike(f.kind))
      && (c.nullable <==> f.ptrDepth == 1 || FieldName(f) == DeletedAtColumn)
      && !c.unique && !c.index && c.uniqueGroups == [] && c.indexGroups == []
      && c.sqlType == if FieldName(f) in [CreatedAtColumn, UpdatedAtColumn, DeletedAtColumn] then "timestamp"
                      else TypeAndDefault(f.kind, f.ptrDepth).0
  {
    BookkeepingKeepsName(BaseColumn(i, f));
  }

  /** Without an `orm` name the convention decides: only struct index 0 is
      primary, and it is auto-increment exactly when its kind maps to an
      integer type; nullability comes from the pointer or `deleted_at`; no
      key flags or groups are set. */
  lemma ConventionWithoutOrmName(i: nat, f: FieldDesc)
    requires TagsPresent(f) && !Dropped(f) && f.ormTags[0] == ""
    ensures var c := ResolveField(i, f).value;
      && (c.primary <==> i == 0)
      && (c.autoIncrement <==> i == 0 && IsIntegerLike(f.kind))
      && (c.nullable <==> f.ptrDepth == 1 || FieldName(f) == DeletedAtColumn)
      && !c.unique && !c.index && c.uniqueGroups == [] && c.indexGroups == []
  {
    PreModifierFacts(i, f);
  }

  /** With an `orm` name the tokens decide: null, auto-increment and primary
      are exactly the presence of their tokens (earlier values discarded); the
      simple key flags are the bare `unique`/`index` tokens; the group lists
      are the longer `unique…`/`index…` tokens in order; the type is the last
      type token unless that is empty. */
  lemma ModifierTokensDecide(i: nat, f: FieldDesc)
    requires TagsPresent(f) && !Dropped(f) && f.ormTags[0] != ""
    ensures var c := ResolveField(i, f).value;
      var toks := f.ormTags[1..];
      && (c.nullable <==> NullPrefix in toks)
      && (c.autoIncrement <==> AutoIncrementPrefix in toks)
      && (c.primary <==> exists t :: t in toks && HasPrefix(t, PrimaryKeyPrefix))
      && (c.unique <==> UniqueKeyPrefix in toks)
      && (c.index <==> KeyPrefix in toks)
      && c.uniqueGroups == PrefixedTokens(toks, UniqueKeyPrefix)
      && c.indexGroups == PrefixedTokens(toks, KeyPrefix)
      && c.sqlType == if LastTypeToken(toks) != "" then LastTypeToken(toks)
                      else Bookkeeping(BaseColumn(i, f)).sqlType
  {
    var toks := f.ormTags[1..];
    PreModifierFacts(i, f);
    FlagModifiers(toks);
    GroupModifiers(toks);
    TypeModifiers(toks);
  }

  lemma LowerCurrentTimestamp()
    ensures Lower(CurrentTimestamp) == DefinedDefault[1]
  {
    var s, t := CurrentTimestamp, DefinedDefault[1];
    assert forall k :: 0 <= k < |s| ==> Lower(s)[k] == t[k];
  }

  lemma LowerOnUpdate()
    ensures Lower(" ON UPDATE ") == " on update "
  {
    var s, t := " ON UPDATE ", " on update ";
    assert forall k :: 0 <= k < |s| ==> Lower(s)[k] == t[k];
  }

  /** The bookkeeping defaults are among the bare literals. */
  lemma BareTimestampDefaults()
    ensures Lower("Null") == DefinedDefault[0] && Lower("null") == DefinedDefault[0]
    ensures Lower(CurrentTimestamp) == DefinedDefault[1]
    ensures Lower(CurrentTimestampOnUpdate) == DefinedDefault[2]
  {
    var n := "null";
    assert forall k :: 0 <= k < |n| ==> Lower(n)[k] == n[k];
    assert forall k :: 0 <= k < |n| ==> Lower("Null")[k] == n[k];
    LowerCurrentTimestamp();
    LowerOnUpdate();
    var a, b := CurrentTimestamp, " ON UPDATE ";
    LowerConcat(a + b, a);
    LowerConcat(a, b);
  }

  /** The bookkeeping names force a timestamp column whatever the kind (unless
      a type token overrides it), with their fixed defaults when no custom
      default and no null marking intervene. `deleted_at` without an `orm`
      name is nullable with default null; with an `orm` name but no `null`
      token it is not null and keeps its bookkeeping default `Null`, bare. */
  lemma BookkeepingColumns(i: nat, f: FieldDesc)
    requires TagsPresent(f) && !Dropped(f)
    requires f.ormTags[0] == "" || LastTypeToken(f.ormTags[1..]) == ""
    ensures var c := ResolveField(i, f).value;
      && (FieldName(f) in [CreatedAtColumn, UpdatedAtColumn, DeletedAtColumn] ==> c.sqlType == "timestamp")
      && (FieldName(f) == CreatedAtColumn && f.defaultTags[0] == "" && !c.nullable ==>
            c.defaultValue == CurrentTimestamp)
      && (FieldName(f) == UpdatedAtColumn && f.defaultTags[0] == "" && !c.nullable ==>
            c.defaultValue == CurrentTimestampOnUpdate)
      && (FieldName(f) == DeletedAtColumn && f.ormTags[0] == "" && f.defaultTags[0] == "" ==>
            c.nullable && c.defaultValue == "null")
      && (FieldName(f) == DeletedAtColumn && f.ormTags[0] != "" && NullPrefix !in f.ormTags[1..]
            && f.defaultTags[0] == "" ==>
            !c.nullable && c.defaultValue == "Null")
  {
    var b := Bookkeeping(BaseColumn(i, f));
    BookkeepingKeepsName(BaseColumn(i, f));
    var c := PreModifierColumn(i, f);
    assert c.name == FieldName(f) && c.sqlType == b.sqlType && c.nullable == b.nullable;
    var m := ModifiedColumn(i, f);
    var r := ResolveField(i, f).value;
    assert r.sqlType == m.sqlType && r.nullable == m.nullable by {
      assert r == FinishDefault(m, f.defaultTags[0]);
    }
    if f.ormTags[0] != "" {
      ModifierTokensDecide(i, f);
    } else {
      assert m == c;
    }
    if f.defaultTags[0] == "" {
      BookkeepingDefaults(i, f);
    }
  }

  lemma BookkeepingDefaults(i: nat, f: FieldDesc)
    requires TagsPresent(f) && !Dropped(f) && f.defaultTags[0] == ""
    ensures var c := ResolveField(i, f).value;
      && (FieldName(f) == CreatedAtColumn && !c.nullable ==> c.defaultValue == CurrentTimestamp)
      && (FieldName(f) == UpdatedAtColumn && !c.nullable ==> c.defaultValue == CurrentTimestampOnUpdate)
      && (FieldName(f) == DeletedAtColumn && f.ormTags[0] == "" ==> c.nullable && c.defaultValue == "null")
      && (FieldName(f) == DeletedAtColumn && f.ormTags[0] != "" && NullPrefix !in f.ormTags[1..] ==>
            !c.nullable && c.defaultValue == "Null")
  {
    BareTimestampDefaults();
    BookkeepingKeepsName(BaseColumn(i, f));
    var c := PreModifierColumn(i, f);
    var m := ModifiedColumn(i, f);
    assert c.name == FieldName(f);
    ResolvedDefault(i, f);
    var r := ResolveField(i, f).value;
    assert r.nullable == m.nullable by {
      assert r == FinishDefault(m, f.defaultTags[0]);
    }
    if f.ormTags[0] == "" {
      assert m == c;
    } else {
      ModifierTokensDecide(i, f);
    }
  }

  /** A non-empty `default` tag wins over every computed default; for a Bool
      field "true"/"false" in any case become 1/0. The result is quoted. */
  lemma CustomDefaultWins(i: nat, f: FieldDesc)
    requires TagsPresent(f) && !Dropped(f) && f.defaultTags[0] != ""
    ensures var c := ResolveField(i, f).value;
      var d := f.defaultTags[0];
      && (f.kind == Bool && Lower(d) == "true" ==> c.defaultValue == "'1'")
      && (f.kind == Bool && Lower(d) == "false" ==> c.defaultValue == "'0'")
      && (f.kind != Bool || Lower(d) !in ["true", "false"] ==> c.defaultValue == QuoteDefault(d))
  {
    var d := f.defaultTags[0];
    ResolvedDefault(i, f);
    assert PreModifierColumn(i, f).defaultValue == NormaliseDefault(f.kind, d);
    assert Lower("1") == "1";
    assert Lower("0") == "0";
  }

  /** The final default is the quoted pre-modifier default, or the quoted
      "null" for a nullable column without a custom default. */
  lemma ResolvedDefault(i: nat, f: FieldDesc)
    requires TagsPresent(f) && !Dropped(f)
    ensures var m := ModifiedColumn(i, f);
      ResolveField(i, f).value.defaultValue ==
        QuoteDefault(if m.nullable && f.defaultTags[0] == "" then "null" else PreModifierColumn(i, f).defaultValue)
  {
    var c := PreModifierColumn(i, f);
    var m := ModifiedColumn(i, f);
    assert m.defaultValue == c.defaultValue;
    assert ResolveField(i, f).value == FinishDefault(m, f.defaultTags[0]);
  }

  /** A nullable column without a custom default has default null; every
      default is either a bare SQL literal or single-quoted. */
  lemma DefaultFinalised(i: nat, f: FieldDesc)
    requires TagsPresent(f) && !Dropped(f)
    ensures var c := ResolveField(i, f).value;
      && (c.nullable && f.defaultTags[0] == "" ==> c.defaultValue == "null")
      && (IsBareDefault(c.defaultValue) ||
          (|c.defaultValue| >= 2 && c.defaultValue[0] == '\'' && c.defaultValue[|c.defaultValue| - 1] == '\''))
  {
    BareTimestampDefaults();
    ResolvedDefault(i, f);
    assert ResolveField(i, f).value.nullable == ModifiedColumn(i, f).nullable;
  }

  // ---------------------------------------------------------------------
  // Properties of the whole column list
  // ---------------------------------------------------------------------

  lemma KeptSnoc(fields: seq<FieldDesc>, n: nat)
    requires AllTagsPresent(fields) && n < |fields|
    ensures AllTagsPresent(fields[..n])
    ensures Kept(fields[..n + 1]) == Kept(fields[..n]) + if Dropped(fields[n]) then [] else [n]
  {
    assert fields[..n + 1][..n] == fields[..n];
  }

  /** `Kept` lists exactly the struct indices of the fields that survive
      filtering, in ascending order. */
  lemma KeptIsSurvivingIndices(fields: seq<FieldDesc>)
    requires AllTagsPresent(fields)
    ensures forall j :: j in Kept(fields) <==> 0 <= j < |fields| && !Dropped(fields[j])
    ensures forall a, b :: 0 <= a < b < |Kept(fields)| ==> Kept(fields)[a] < Kept(fields)[b]
  {
    KeptMembers(fields);
    KeptAscending(fields);
  }

  lemma {:induction false} KeptMembers(fields: seq<FieldDesc>)
    requires AllTagsPresent(fields)
    ensures forall j :: j in Kept(fields) <==> 0 <= j < |fields| && !Dropped(fields[j])
    decreases |fields|
  {
    if |fields| > 0 {
      var n := |fields| - 1;
      var pre := fields[..n];
      KeptMembers(pre);
      KeptSnoc(fields, n);
      assert fields[..n + 1] == fields;
      var tail := if Dropped(fields[n]) then [] else [n];
      assert Kept(fields) == Kept(pre) + tail;
      forall j
        ensures j in Kept(fields) <==> 0 <= j < |fields| && !Dropped(fields[j])
      {
        assert j in Kept(fields) <==> j in Kept(pre) || j in tail;
        if 0 <= j < n {
          assert pre[j] == fields[j];
        }
      }
    }
  }

  lemma {:induction false} KeptAscending(fields: seq<FieldDesc>)
    requires AllTagsPresent(fields)
    ensures forall a, b :: 0 <= a < b < |Kept(fields)| ==> Kept(fields)[a] < Kept(fields)[b]
    decreases |fields|
  {
    if |fields| > 0 {
      var n := |fields| - 1;
      var pre := fields[..n];
      KeptAscending(pre);
      KeptMembers(pre);
      KeptSnoc(fields, n);
      assert fields[..n + 1] == fields;
      forall a | 0 <= a < |Kept(pre)|
        ensures Kept(pre)[a] < n
      {
        assert Kept(pre)[a] in Kept(pre);
      }
    }
  }

  /** The columns are the resolutions of the surviving fields, one per
      surviving field, in field order. */
  lemma {:induction false} ColumnsAreKeptFields(fields: seq<FieldDesc>)
    requires AllTagsPresent(fields)
    ensures |Columns(fields)| == |Kept(fields)|
    ensures forall k :: 0 <= k < |Kept(fields)| ==>
      Kept(fields)[k] < |fields| &&
      ResolveField(Kept(fields)[k], fields[Kept(fields)[k]]) == Some(Columns(fields)[k])
    decreases |fields|
  {
    if |fields| > 0 {
      var n := |fields| - 1;
      var pre := fields[..n];
      ColumnsAreKeptFields(pre);
      KeptSnoc(fields, n);
      ColumnsSnoc(fields, n);
      assert fields[..n + 1] == fields;
      forall k | 0 <= k < |Kept(fields)|
        ensures Kept(fields)[k] < |fields|
        ensures ResolveField(Kept(fields)[k], fields[Kept(fields)[k]]) == Some(Columns(fields)[k])
      {
        if k < |Kept(pre)| {
          assert Kept(fields)[k] == Kept(pre)[k];
          assert Columns(fields)[k] == Columns(pre)[k];
          assert fields[Kept(pre)[k]] == pre[Kept(pre)[k]];
        }
      }
    }
  }

  /** A column is primary exactly when it comes from struct field 0 without
      an `orm` name, or its `orm` tag carries a `primary…` token. So if field 0
      is dropped, no column is primary by convention. */
  lemma PrimaryColumns(fields: seq<FieldDesc>)
    requires AllTagsPresent(fields)
    ensures |Columns(fields)| == |Kept(fields)|
    ensures forall k :: 0 <= k < |Columns(fields)| ==>
      Kept(fields)[k] < |fields| &&
      (Columns(fields)[k].primary <==>
        var f := fields[Kept(fields)[k]];
        if f.ormTags[0] == "" then Kept(fields)[k] == 0
        else exists t :: t in f.ormTags[1..] && HasPrefix(t, PrimaryKeyPrefix))
  {
    ColumnsAreKeptFields(fields);
    KeptIsSurvivingIndices(fields);
    forall k | 0 <= k < |Columns(fields)|
      ensures Kept(fields)[k] < |fields|
      ensures Columns(fields)[k].primary <==>
        var f := fields[Kept(fields)[k]];
        if f.ormTags[0] == "" then Kept(fields)[k] == 0
        else exists t :: t in f.ormTags[1..] && HasPrefix(t, PrimaryKeyPrefix)
    {
      var j := Kept(fields)[k];
      assert j in Kept(fields);
      if fields[j].ormTags[0] == "" {
        ConventionWithoutOrmName(j, fields[j]);
      } else {
        ModifierTokensDecide(j, fields[j]);
      }
    }
  }
}
