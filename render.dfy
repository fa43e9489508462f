/** DDL assembly (`generateColumnStrings`): one clause per column, then the
    primary key, the simple unique keys and keys, and the composite ones.

    The source collects composite groups in Go maps and emits them in map
    iteration order, which Go leaves unspecified. Here a group table is a
    list of (group name, members) pairs kept in first-insertion order: one of
    the orders the source may produce. */
module Render {
  import opened Text
  import opened ColumnModel

  type GroupTable = seq<(string, seq<string>)>

  function Backtick(name: string): string {
    "`" + name + "`"
  }

  // ---------------------------------------------------------------------
  // Column clauses
  // ---------------------------------------------------------------------

  /** The words of one column clause: name, type, null or not null, then
      auto_increment or the default, then the comment. */
  function ColumnWords(c: Column): seq<string> {
    [Backtick(c.name), c.sqlType, if c.nullable then "null" else "not null"]
    + (if c.autoIncrement then ["auto_increment"]
       else if c.defaultValue != "" then ["default " + c.defaultValue] else [])
    + (if c.comment != "" then ["comment " + "'" + c.comment + "'"] else [])
  }

  function ColumnClause(c: Column): string {
    Join(ColumnWords(c), " ")
  }

  function ColumnClauses(cols: seq<Column>): seq<string> {
    seq(|cols|, k requires 0 <= k < |cols| => ColumnClause(cols[k]))
  }

  /** An auto-increment column carries `auto_increment` and never a default
      clause; any other column with a default carries exactly
      `default <value>` after the null word; the comment, if any, comes last;
      an empty default or comment adds no word. */
  lemma AutoIncrementHasNoDefault(c: Column)
    ensures |ColumnWords(c)| >= 3
    ensures ColumnWords(c)[0] == Backtick(c.name) && ColumnWords(c)[1] == c.sqlType
    ensures ColumnWords(c)[2] == if c.nullable then "null" else "not null"
    ensures |ColumnWords(c)| ==
      3 + (if c.autoIncrement || c.defaultValue != "" then 1 else 0) + (if c.comment != "" then 1 else 0)
    ensures c.autoIncrement ==> ColumnWords(c)[3] == "auto_increment"
    ensures c.autoIncrement ==>
      forall k :: 3 <= k < |ColumnWords(c)| ==> !HasPrefix(ColumnWords(c)[k], "default ")
    ensures !c.autoIncrement && c.defaultValue != "" ==> ColumnWords(c)[3] == "default " + c.defaultValue
    ensures c.comment != "" ==> ColumnWords(c)[|ColumnWords(c)| - 1] == "comment " + "'" + c.comment + "'"
  {
    var w := ColumnWords(c);
    if c.autoIncrement {
      forall k | 3 <= k < |w|
        ensures !HasPrefix(w[k], "default ")
      {
        assert w[k][0] != 'd';
      }
    }
  }

  // ---------------------------------------------------------------------
  // Primary, unique and index clauses
  // ---------------------------------------------------------------------

  function PrimaryKeyClause(name: string): string {
    "primary key (" + Backtick(name) + ")"
  }

  function UniqueKeyClause(name: string): string {
    "unique key `" + name + "` (`" + name + "`)"
  }

  function KeyClause(name: string): string {
    "key `" + name + "` (`" + name + "`)"
  }

  /** `primaryStr` after the columns: the last primary column wins; "" if none. */
  function PrimaryStr(cols: seq<Column>): string
    decreases |cols|
  {
    if |cols| == 0 then ""
    else if cols[|cols| - 1].primary then PrimaryKeyClause(cols[|cols| - 1].name)
    else PrimaryStr(cols[..|cols| - 1])
  }

  /** `uniqueColumns`: non-primary columns flagged unique. */
  function UniqueKeyClauses(cols: seq<Column>): seq<string>
    decreases |cols|
  {
    if |cols| == 0 then []
    else
      var c := cols[|cols| - 1];
      UniqueKeyClauses(cols[..|cols| - 1]) + if !c.primary && c.unique then [UniqueKeyClause(c.name)] else []
  }

  /** `indexColumns`: columns flagged index that are neither primary nor unique. */
  function KeyClauses(cols: seq<Column>): seq<string>
    decreases |cols|
  {
    if |cols| == 0 then []
    else
      var c := cols[|cols| - 1];
      KeyClauses(cols[..|cols| - 1]) + if !c.primary && !c.unique && c.index then [KeyClause(c.name)] else []
  }

  // ---------------------------------------------------------------------
  // Composite groups
  // ---------------------------------------------------------------------

  function Keys(t: GroupTable): seq<string> {
    seq(|t|, k requires 0 <= k < |t| => t[k].0)
  }

  /** The members recorded for group `g` (nil, that is [], if absent). */
  function Lookup(t: GroupTable, g: string): seq<string>
    decreases |t|
  {
    if |t| == 0 then [] else if t[0].0 == g then t[0].1 else Lookup(t[1..], g)
  }

  /** `comps[g] = append(comps[g], m)`: a new group goes to the end. */
  function AddMember(t: GroupTable, g: string, m: string): (r: GroupTable)
    ensures Keys(r) == if g in Keys(t) then Keys(t) else Keys(t) + [g]
    ensures forall h :: Lookup(r, h) == if h == g then Lookup(t, h) + [m] else Lookup(t, h)
    decreases |t|
  {
    if |t| == 0 then [(g, [m])]
    else if t[0].0 == g then
      var r := [(g, t[0].1 + [m])] + t[1..];
      assert Keys(r) == [g] + Keys(t[1..]) == Keys(t);
      r
    else
      var rest := AddMember(t[1..], g, m);
      assert Keys(t) == [t[0].0] + Keys(t[1..]);
      assert Keys([t[0]] + rest) == [t[0].0] + Keys(rest);
      [t[0]] + rest
  }

  /** Adds member `m` to each of the groups `names`, in order. */
  function AddToGroups(t: GroupTable, names: seq<string>, m: string): GroupTable
    decreases |names|
  {
    if |names| == 0 then t
    else AddMember(AddToGroups(t, names[..|names| - 1], m), names[|names| - 1], m)
  }

  function GroupsOf(c: Column, unique: bool): seq<string> {
    if unique then c.uniqueGroups else c.indexGroups
  }

  /** `uniqueComps` (`unique`) or `indexComps` (`!unique`) after the columns. */
  function CompositeGroups(cols: seq<Column>, unique: bool): GroupTable
    decreases |cols|
  {
    if |cols| == 0 then []
    else
      var c := cols[|cols| - 1];
      AddToGroups(CompositeGroups(cols[..|cols| - 1], unique), GroupsOf(c, unique), Backtick(c.name))
  }

  /** One composite clause per group, in table order. */
  function CompositeClauses(keyword: string, t: GroupTable): seq<string> {
    seq(|t|, k requires 0 <= k < |t| => keyword + " `" + t[k].0 + "` (" + Join(t[k].1, ",") + ")")
  }

  /** The key clauses that follow the column clauses: the primary key, the
      simple unique keys, the simple keys, the composite unique keys and the
      composite keys. */
  function KeySection(cols: seq<Column>): seq<string> {
    (if PrimaryStr(cols) != "" then [PrimaryStr(cols)] else [])
    + UniqueKeyClauses(cols)
    + KeyClauses(cols)
    + CompositeClauses("unique key", CompositeGroups(cols, true))
    + CompositeClauses("key", CompositeGroups(cols, false))
  }

  /** Everything `generateColumnStrings` returns, in order. */
  function Clauses(cols: seq<Column>): seq<string> {
    ColumnClauses(cols) + KeySection(cols)
  }

  // ---------------------------------------------------------------------
  // The imperative assembly
  // ---------------------------------------------------------------------

  lemma CompositeGroupsSnoc(cols: seq<Column>, i: nat, unique: bool)
    requires i < |cols|
    ensures CompositeGroups(cols[..i + 1], unique) ==
      AddToGroups(CompositeGroups(cols[..i], unique), GroupsOf(cols[i], unique), Backtick(cols[i].name))
  {
    assert cols[..i + 1][..i] == cols[..i];
  }

  lemma ColumnClausesSnoc(cols: seq<Column>, i: nat)
    requires i < |cols|
    ensures ColumnClauses(cols[..i + 1]) == ColumnClauses(cols[..i]) + [ColumnClause(cols[i])]
  {
  }

  lemma SimpleClausesSnoc(cols: seq<Column>, i: nat)
    requires i < |cols|
    ensures PrimaryStr(cols[..i + 1]) == if cols[i].primary then PrimaryKeyClause(cols[i].name) else PrimaryStr(cols[..i])
    ensures UniqueKeyClauses(cols[..i + 1]) ==
      UniqueKeyClauses(cols[..i]) + if !cols[i].primary && cols[i].unique then [UniqueKeyClause(cols[i].name)] else []
    ensures KeyClauses(cols[..i + 1]) ==
      KeyClauses(cols[..i]) + if !cols[i].primary && !cols[i].unique && cols[i].index then [KeyClause(cols[i].name)] else []
  {
    assert cols[..i + 1][..i] == cols[..i];
  }

  /** `generateColumnStrings`. */
  method GenerateColumnStrings(cols: seq<Column>) returns (ret: seq<string>)
    ensures ret == Clauses(cols)
  {
    ret := [];
    var primaryStr := "";
    var uniqueColumns: seq<string> := [];
    var indexColumns: seq<string> := [];
    var uniqueComps: GroupTable := [];
    var indexComps: GroupTable := [];
    for i := 0 to |cols|
      invariant ret == ColumnClauses(cols[..i])
      invariant primaryStr == PrimaryStr(cols[..i])
      invariant uniqueColumns == UniqueKeyClauses(cols[..i])
      invariant indexColumns == KeyClauses(cols[..i])
      invariant uniqueComps == CompositeGroups(cols[..i], true)
      invariant indexComps == CompositeGroups(cols[..i], false)
    {
      var v := cols[i];
      ColumnClausesSnoc(cols, i);
      SimpleClausesSnoc(cols, i);
      CompositeGroupsSnoc(cols, i, true);
      CompositeGroupsSnoc(cols, i, false);
      var words := ColumnWordsOf(v);
      if v.primary {
        primaryStr := PrimaryKeyClause(v.name);
      } else if v.unique {
        uniqueColumns := uniqueColumns + [UniqueKeyClause(v.name)];
      } else if v.index {
        indexColumns := indexColumns + [KeyClause(v.name)];
      }
      uniqueComps := AddMemberToAll(uniqueComps, v.uniqueGroups, Backtick(v.name));
      indexComps := AddMemberToAll(indexComps, v.indexGroups, Backtick(v.name));
      ret := ret + [Join(words, " ")];
    }
    assert cols[..|cols|] == cols;
    ret := AppendKeySection(ret, primaryStr, uniqueColumns, indexColumns, uniqueComps, indexComps);
  }

  /** The tail of `generateColumnStrings`: the primary key clause if any,
      the simple key clauses, then one clause per composite group. */
  method AppendKeySection(ret0: seq<string>, primaryStr: string, uniqueColumns: seq<string>,
                          indexColumns: seq<string>, uniqueComps: GroupTable, indexComps: GroupTable)
    returns (ret: seq<string>)
    ensures ret == ret0 + ((if primaryStr != "" then [primaryStr] else [])
      + uniqueColumns + indexColumns
      + CompositeClauses("unique key", uniqueComps) + CompositeClauses("key", indexComps))
  {
    ret := ret0;
    ghost var section: seq<string> := [];
    if primaryStr != "" {
      ret := ret + [primaryStr];
      section := [primaryStr];
    }
    ret := AppendAll(ret, uniqueColumns);
    section := section + uniqueColumns;
    assert ret == ret0 + section;
    ret := AppendAll(ret, indexColumns);
    section := section + indexColumns;
    assert ret == ret0 + section;
    ret := AppendCompositeClauses(ret, "unique key", uniqueComps);
    section := section + CompositeClauses("unique key", uniqueComps);
    assert ret == ret0 + section;
    ret := AppendCompositeClauses(ret, "key", indexComps);
    section := section + CompositeClauses("key", indexComps);
  }

  /** One clause per composite group, visiting the groups in table order. */
  method AppendCompositeClauses(ret0: seq<string>, keyword: string, comps: GroupTable) returns (ret: seq<string>)
    ensures ret == ret0 + CompositeClauses(keyword, comps)
  {
    ret := ret0;
    for k := 0 to |comps|
      invariant ret == ret0 + CompositeClauses(keyword, comps[..k])
    {
      assert CompositeClauses(keyword, comps[..k + 1]) == CompositeClauses(keyword, comps[..k]) + [CompositeClauses(keyword, comps)[k]];
      ret := ret + [keyword + " `" + comps[k].0 + "` (" + Join(comps[k].1, ",") + ")"];
    }
    assert comps[..|comps|] == comps;
  }

  /** The words of one column, appended one by one as the source does. */
  method ColumnWordsOf(v: Column) returns (words: seq<string>)
    ensures words == ColumnWords(v)
  {
    words := [];
    words := words + [Backtick(v.name)];
    words := words + [v.sqlType];
    if v.nullable {
      words := words + ["null"];
    } else {
      words := words + ["not null"];
    }
    if v.autoIncrement {
      words := words + ["auto_increment"];
    } else if v.defaultValue != "" {
      words := words + ["default " + v.defaultValue];
    }
    if v.comment != "" {
      words := words + ["comment " + "'" + v.comment + "'"];
    }
  }

  /** The inner loop adding one column to each of its groups. */
  method AddMemberToAll(t: GroupTable, names: seq<string>, m: string) returns (r: GroupTable)
    ensures r == AddToGroups(t, names, m)
  {
    r := t;
    for j := 0 to |names|
      invariant r == AddToGroups(t, names[..j], m)
    {
      assert names[..j + 1][..j] == names[..j];
      r := AddMember(r, names[j], m);
    }
    assert names[..|names|] == names;
  }

  /** Appends the simple key clauses one by one. */
  method AppendAll(ret0: seq<string>, xs: seq<string>) returns (ret: seq<string>)
    ensures ret == ret0 + xs
  {
    ret := ret0;
    for k := 0 to |xs|
      invariant ret == ret0 + xs[..k]
    {
      ret := ret + [xs[k]];
    }
    assert xs[..|xs|] == xs;
  }

  // ---------------------------------------------------------------------
  // Properties of the assembled clauses
  // ---------------------------------------------------------------------

  /** At most one primary key clause, naming the last primary column. */
  lemma PrimaryClauseIsLastPrimary(cols: seq<Column>)
    ensures PrimaryStr(cols) == "" <==> forall k :: 0 <= k < |cols| ==> !cols[k].primary
    ensures forall k :: 0 <= k < |cols| && cols[k].primary && (forall j :: k < j < |cols| ==> !cols[j].primary) ==>
      PrimaryStr(cols) == PrimaryKeyClause(cols[k].name)
  {
    PrimaryStrEmpty(cols);
    forall k | 0 <= k < |cols| && cols[k].primary && (forall j :: k < j < |cols| ==> !cols[j].primary)
      ensures PrimaryStr(cols) == PrimaryKeyClause(cols[k].name)
    {
      PrimaryStrLast(cols, k);
    }
  }

  lemma {:induction false} PrimaryStrEmpty(cols: seq<Column>)
    ensures PrimaryStr(cols) == "" <==> forall k :: 0 <= k < |cols| ==> !cols[k].primary
    decreases |cols|
  {
    if |cols| > 0 {
      var n := |cols| - 1;
      var pre := cols[..n];
      PrimaryStrEmpty(pre);
      assert forall k :: 0 <= k < n ==> pre[k] == cols[k];
    }
  }

  lemma {:induction false} PrimaryStrLast(cols: seq<Column>, k: nat)
    requires k < |cols| && cols[k].primary
    requires forall j :: k < j < |cols| ==> !cols[j].primary
    ensures PrimaryStr(cols) == PrimaryKeyClause(cols[k].name)
    decreases |cols|
  {
    var n := |cols| - 1;
    if k < n {
      var pre := cols[..n];
      assert pre[k] == cols[k];
      PrimaryStrLast(pre, k);
    }
  }

  /** A simple unique key clause exists exactly for the non-primary columns
      flagged unique; a simple key clause exactly for the columns flagged
      index that are neither primary nor unique. */
  lemma {:induction false} SimpleKeyClausesMembers(cols: seq<Column>)
    ensures forall k :: 0 <= k < |cols| && !cols[k].primary && cols[k].unique ==>
      UniqueKeyClause(cols[k].name) in UniqueKeyClauses(cols)
    ensures forall s :: s in UniqueKeyClauses(cols) ==>
      exists k :: 0 <= k < |cols| && !cols[k].primary && cols[k].unique && s == UniqueKeyClause(cols[k].name)
    ensures forall k :: 0 <= k < |cols| && !cols[k].primary && !cols[k].unique && cols[k].index ==>
      KeyClause(cols[k].name) in KeyClauses(cols)
    ensures forall s :: s in KeyClauses(cols) ==>
      exists k :: 0 <= k < |cols| && !cols[k].primary && !cols[k].unique && cols[k].index && s == KeyClause(cols[k].name)
    decreases |cols|
  {
    if |cols| > 0 {
      var n := |cols| - 1;
      var pre := cols[..n];
      SimpleKeyClausesMembers(pre);
      forall k | 0 <= k < n
        ensures pre[k] == cols[k]
      {
      }
    }
  }

  /** The simple key clauses come in column order: those of the first `n`
      columns are a prefix of those of all columns. */
  lemma {:induction false} SimpleKeyClausesInColumnOrder(cols: seq<Column>, n: nat)
    requires n <= |cols|
    ensures UniqueKeyClauses(cols[..n]) <= UniqueKeyClauses(cols)
    ensures KeyClauses(cols[..n]) <= KeyClauses(cols)
    decreases |cols|
  {
    if n < |cols| {
      var pre := cols[..|cols| - 1];
      var c := cols[|cols| - 1];
      assert cols[..n] == pre[..n];
      SimpleKeyClausesInColumnOrder(pre, n);
      assert UniqueKeyClauses(cols) ==
        UniqueKeyClauses(pre) + if !c.primary && c.unique then [UniqueKeyClause(c.name)] else [];
      assert KeyClauses(cols) ==
        KeyClauses(pre) + if !c.primary && !c.unique && c.index then [KeyClause(c.name)] else [];
    } else {
      assert cols[..n] == cols;
    }
  }

  /** How many times `g` occurs in `names`. */
  function Count(names: seq<string>, g: string): nat
    decreases |names|
  {
    if |names| == 0 then 0
    else Count(names[..|names| - 1], g) + if names[|names| - 1] == g then 1 else 0
  }

  function Repeat(m: string, n: nat): seq<string> {
    if n == 0 then [] else Repeat(m, n - 1) + [m]
  }

  lemma {:induction false} RepeatAdd(m: string, a: nat, b: nat)
    ensures Repeat(m, a) + Repeat(m, b) == Repeat(m, a + b)
    decreases b
  {
    if b > 0 {
      RepeatAdd(m, a, b - 1);
    }
  }

  /** The members of group `g`, defined column by column: each column,
      backticked, once per occurrence of `g` in its group list, in column
      order. */
  function Members(cols: seq<Column>, unique: bool, g: string): seq<string>
    decreases |cols|
  {
    if |cols| == 0 then []
    else
      var c := cols[|cols| - 1];
      Members(cols[..|cols| - 1], unique, g) + Repeat(Backtick(c.name), Count(GroupsOf(c, unique), g))
  }

  predicate Distinct(s: seq<string>) {
    forall a, b :: 0 <= a < b < |s| ==> s[a] != s[b]
  }

  lemma {:induction false} AddToGroupsLookup(t: GroupTable, names: seq<string>, m: string)
    ensures forall h :: Lookup(AddToGroups(t, names, m), h) == Lookup(t, h) + Repeat(m, Count(names, h))
    decreases |names|
  {
    if |names| > 0 {
      var n := |names| - 1;
      AddToGroupsLookup(t, names[..n], m);
      forall h
        ensures Lookup(AddToGroups(t, names, m), h) == Lookup(t, h) + Repeat(m, Count(names, h))
      {
        RepeatAdd(m, Count(names[..n], h), 1);
      }
    }
  }

  lemma {:induction false} AddToGroupsKeys(t: GroupTable, names: seq<string>, m: string)
    ensures forall h :: h in Keys(AddToGroups(t, names, m)) <==> h in Keys(t) || h in names
    ensures Distinct(Keys(t)) ==> Distinct(Keys(AddToGroups(t, names, m)))
    decreases |names|
  {
    if |names| > 0 {
      var n := |names| - 1;
      AddToGroupsKeys(t, names[..n], m);
      assert names == names[..n] + [names[n]];
    }
  }

  /** The composite group table built by the scan maps every group to its
      members in column order, holds exactly the groups some column names,
      and holds each group once. */
  lemma {:induction false} CompositeGroupsAreMembers(cols: seq<Column>, unique: bool)
    ensures forall g :: Lookup(CompositeGroups(cols, unique), g) == Members(cols, unique, g)
    ensures forall g :: g in Keys(CompositeGroups(cols, unique)) <==>
      exists k :: 0 <= k < |cols| && g in GroupsOf(cols[k], unique)
    ensures Distinct(Keys(CompositeGroups(cols, unique)))
    decreases |cols|
  {
    if |cols| > 0 {
      var n := |cols| - 1;
      var pre := cols[..n];
      var c := cols[n];
      CompositeGroupsAreMembers(pre, unique);
      AddToGroupsLookup(CompositeGroups(pre, unique), GroupsOf(c, unique), Backtick(c.name));
      AddToGroupsKeys(CompositeGroups(pre, unique), GroupsOf(c, unique), Backtick(c.name));
      forall g
        ensures g in Keys(CompositeGroups(cols, unique)) <==>
          exists k :: 0 <= k < |cols| && g in GroupsOf(cols[k], unique)
      {
        if exists k :: 0 <= k < |cols| && g in GroupsOf(cols[k], unique) {
          var k :| 0 <= k < |cols| && g in GroupsOf(cols[k], unique);
          if k < n {
            assert pre[k] == cols[k];
          }
        }
        if exists k :: 0 <= k < n && g in GroupsOf(pre[k], unique) {
          var k :| 0 <= k < n && g in GroupsOf(pre[k], unique);
          assert pre[k] == cols[k];
        }
      }
    }
  }
}
