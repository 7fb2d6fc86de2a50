/** The Postgres external-table reader of the CDC source: the offset it keeps (transaction
    id and log sequence number), how it parses a Debezium offset, how it quotes a table
    name, the column list it selects, and the snapshot query text and parameters,
    including the row-comparison filter `(k1, k2) > ($1, $2)` that resumes a snapshot
    after a given primary key.

    The connection, the queries it runs and the row stream are not modelled; JSON
    decoding is a parameter. */
module Postgres {
  import opened Common

  // ---------------------------------------------------------------------------
  // PostgresOffset and its ordering
  // ---------------------------------------------------------------------------

  datatype PostgresOffset = PostgresOffset(txid: i64, lsn: u64)

  /** `PostgresOffset::default()`. */
  const DEFAULT_OFFSET := PostgresOffset(0, 0)

  datatype Ordering = Less | Equal | Greater

  function Flip(o: Ordering): Ordering
  {
    match o
    case Less => Greater
    case Equal => Equal
    case Greater => Less
  }

  function CompareInts(a: int, b: int): (r: Ordering)
    ensures r == Less <==> a < b
    ensures r == Equal <==> a == b
  {
    if a < b then Less else if a == b then Equal else Greater
  }

  /** The derived ordering: fields in declaration order, `txid` first, then `lsn`. */
  function Compare(a: PostgresOffset, b: PostgresOffset): (r: Ordering)
    ensures r == Equal <==> a == b
    ensures r == Less <==> a.txid < b.txid || (a.txid == b.txid && a.lsn < b.lsn)
  {
    var byTxid := CompareInts(a.txid, b.txid);
    if byTxid != Equal then byTxid else CompareInts(a.lsn, b.lsn)
  }

  /** Swapping the operands flips the answer. */
  lemma CompareAntisymmetric(a: PostgresOffset, b: PostgresOffset)
    ensures Compare(b, a) == Flip(Compare(a, b))
  {
  }

  /** The ordering is transitive. */
  lemma CompareTransitive(a: PostgresOffset, b: PostgresOffset, c: PostgresOffset)
    requires Compare(a, b) == Less && Compare(b, c) == Less
    ensures Compare(a, c) == Less
  {
  }

  /** A smaller transaction id decides, whatever the log positions. */
  lemma TxidDominates(a: PostgresOffset, b: PostgresOffset)
    requires a.txid < b.txid
    ensures Compare(a, b) == Less && Compare(b, a) == Greater
  {
  }

  // ---------------------------------------------------------------------------
  // parse_debezium_offset
  // ---------------------------------------------------------------------------

  /** The `sourceOffset` part of a Debezium offset, as far as Postgres uses it. */
  datatype SourceOffset = SourceOffset(txid: Option<i64>, lsn: Option<u64>)

  datatype DebeziumOffset = DebeziumOffset(sourceOffset: SourceOffset)

  /** `ConnectorError::Internal` with its message. */
  datatype ConnectorError = Internal(message: string)

  const INVALID_TXID := "invalid postgres txid"
  const INVALID_LSN := "invalid postgres lsn"

  function InvalidOffsetMessage(offset: string, error: string): string
  {
    "invalid upstream offset: " + offset + ", error: " + error
  }

  /** `parse_debezium_offset`, with JSON decoding passed in as `decode`. A decoding error
      is reported first, then a missing txid, then a missing lsn. */
  function ParseDebeziumOffset(decode: string -> Result<DebeziumOffset, string>, offset: string)
    : (r: Result<PostgresOffset, ConnectorError>)
    ensures decode(offset).Err? ==> r == Err(Internal(InvalidOffsetMessage(offset, decode(offset).error)))
    ensures decode(offset).Ok? && decode(offset).value.sourceOffset.txid.None? ==> r == Err(Internal(INVALID_TXID))
    ensures (decode(offset).Ok? && decode(offset).value.sourceOffset.txid.Some?
             && decode(offset).value.sourceOffset.lsn.None?) ==> r == Err(Internal(INVALID_LSN))
    ensures r.Ok? <==> decode(offset).Ok? && decode(offset).value.sourceOffset.txid.Some?
                       && decode(offset).value.sourceOffset.lsn.Some?
    ensures r.Ok? ==> r.value.txid == decode(offset).value.sourceOffset.txid.value
                      && r.value.lsn == decode(offset).value.sourceOffset.lsn.value
  {
    match decode(offset)
    case Err(e) => Err(Internal(InvalidOffsetMessage(offset, e)))
    case Ok(dbz) =>
      match dbz.sourceOffset.txid
      case None => Err(Internal(INVALID_TXID))
      case Some(txid) =>
        match dbz.sourceOffset.lsn
        case None => Err(Internal(INVALID_LSN))
        case Some(lsn) => Ok(PostgresOffset(txid, lsn))
  }

  /** Parsing is faithful to the decoded offset: an offset whose decoded form carries both
      values parses to exactly those, and every parsed offset comes from such a form. */
  lemma ParseRecoversDecodedOffset(decode: string -> Result<DebeziumOffset, string>, offset: string, p: PostgresOffset)
    ensures ParseDebeziumOffset(decode, offset) == Ok(p)
            <==> decode(offset).Ok? && decode(offset).value.sourceOffset == SourceOffset(Some(p.txid), Some(p.lsn))
  {
  }

  // ---------------------------------------------------------------------------
  // get_normalized_table_name
  // ---------------------------------------------------------------------------

  datatype SchemaTableName = SchemaTableName(schemaName: string, tableName: string)

  /** Each name in double quotes, joined by a dot. Quotes inside a name are not escaped. */
  function NormalizedTableName(name: SchemaTableName): (r: string)
    ensures |r| == |name.schemaName| + |name.tableName| + 5
    ensures r[0] == '"' && r[|name.schemaName| + 1..|name.schemaName| + 4] == "\".\"" && r[|r| - 1] == '"'
    ensures r[1..|name.schemaName| + 1] == name.schemaName
    ensures r[|name.schemaName| + 4..|r| - 1] == name.tableName
  {
    "\"" + name.schemaName + "\".\"" + name.tableName + "\""
  }

  predicate NoQuote(s: string)
  {
    forall i :: 0 <= i < |s| ==> s[i] != '"'
  }

  /** For names without double quotes the quoted form is unambiguous: it determines both
      names. */
  lemma NormalizedTableNameInjective(a: SchemaTableName, b: SchemaTableName)
    requires NoQuote(a.schemaName) && NoQuote(b.schemaName)
    requires NormalizedTableName(a) == NormalizedTableName(b)
    ensures a == b
  {
    var r := NormalizedTableName(a);
    var m, n := |a.schemaName|, |b.schemaName|;
    if m < n {
      QuoteEndsShorterSchema(a, b);
      assert false;
    } else if n < m {
      QuoteEndsShorterSchema(b, a);
      assert false;
    }
    assert a.schemaName == r[1..m + 1] == b.schemaName;
    assert a.tableName == r[m + 4..|r| - 1] == b.tableName;
  }

  /** Where the shorter schema name's closing quote sits, the longer one has a quote. */
  lemma QuoteEndsShorterSchema(x: SchemaTableName, y: SchemaTableName)
    requires NormalizedTableName(x) == NormalizedTableName(y)
    requires |x.schemaName| < |y.schemaName|
    ensures y.schemaName[|x.schemaName|] == '"'
  {
    var r := NormalizedTableName(x);
    var m, n := |x.schemaName|, |y.schemaName|;
    assert r[m + 1] == r[m + 1..m + 4][0] == '"';
    assert r[1..n + 1][m] == r[m + 1];
  }

  /** With a double quote in a name, two different tables get the same quoted name. */
  lemma NormalizedTableNameCollides()
    ensures NormalizedTableName(SchemaTableName("a\".\"b", "c"))
            == NormalizedTableName(SchemaTableName("a", "b\".\"c"))
  {
  }

  // ---------------------------------------------------------------------------
  // field_names
  // ---------------------------------------------------------------------------

  /** The schema's field names without the offset column, in order. */
  function WithoutOffsetColumn(fields: seq<string>, offsetColumnName: string): (r: seq<string>)
    ensures |r| <= |fields|
    ensures forall i :: 0 <= i < |r| ==> r[i] != offsetColumnName && r[i] in fields
    ensures forall f :: f in fields && f != offsetColumnName ==> f in r
    ensures |fields| == 1 ==> r == (if fields[0] == offsetColumnName then [] else fields)
    decreases |fields|
  {
    if |fields| == 0 then []
    else
      var rest := WithoutOffsetColumn(fields[..|fields| - 1], offsetColumnName);
      if fields[|fields| - 1] == offsetColumnName then rest else rest + [fields[|fields| - 1]]
  }

  function Quoted(s: string): (r: string)
    ensures |r| == |s| + 2 && r[0] == '"' && r[|r| - 1] == '"' && r[1..|r| - 1] == s
  {
    "\"" + s + "\""
  }

  function QuoteAll(names: seq<string>): (r: seq<string>)
    ensures |r| == |names| && forall i :: 0 <= i < |names| ==> r[i] == Quoted(names[i])
  {
    seq(|names|, i requires 0 <= i < |names| => Quoted(names[i]))
  }

  /** Filtering keeps the order of the remaining fields and drops only the offset column. */
  lemma {:induction false} WithoutOffsetColumnOfOthers(fields: seq<string>, offsetColumnName: string)
    ensures (forall i :: 0 <= i < |fields| ==> fields[i] != offsetColumnName) ==>
              WithoutOffsetColumn(fields, offsetColumnName) == fields
    decreases |fields|
  {
    if |fields| > 0 {
      WithoutOffsetColumnOfOthers(fields[..|fields| - 1], offsetColumnName);
    }
  }

  /** Filtering a concatenation filters each part: the kept fields stay in schema order,
      each as often as it occurs. */
  lemma {:induction false} WithoutOffsetColumnAppend(a: seq<string>, b: seq<string>, offsetColumnName: string)
    ensures WithoutOffsetColumn(a + b, offsetColumnName)
            == WithoutOffsetColumn(a, offsetColumnName) + WithoutOffsetColumn(b, offsetColumnName)
    decreases |b|
  {
    if |b| > 0 {
      var init := b[..|b| - 1];
      assert (a + b)[..|a + b| - 1] == a + init;
      WithoutOffsetColumnAppend(a, init, offsetColumnName);
    } else {
      assert a + b == a;
    }
  }

  /** The `field_names` of the reader: every non-offset column, double-quoted, joined by
      commas. `offsetColumnName` is the catalog's offset column constant. A schema without
      the offset column is quoted and joined as it stands. */
  function FieldNames(fields: seq<string>, offsetColumnName: string): (r: string)
    ensures (forall i :: 0 <= i < |fields| ==> fields[i] != offsetColumnName) ==>
              r == Join(QuoteAll(fields), ",")
  {
    WithoutOffsetColumnOfOthers(fields, offsetColumnName);
    Join(QuoteAll(WithoutOffsetColumn(fields, offsetColumnName)), ",")
  }

  /** Dropping the offset column at the end of the schema leaves the rest as it was. */
  lemma WithoutTrailingOffsetColumn(fields: seq<string>, offsetColumnName: string)
    requires forall i :: 0 <= i < |fields| ==> fields[i] != offsetColumnName
    ensures FieldNames(fields + [offsetColumnName], offsetColumnName)
            == Join(QuoteAll(fields), ",")
  {
    assert (fields + [offsetColumnName])[..|fields|] == fields;
    WithoutOffsetColumnOfOthers(fields, offsetColumnName);
  }

  // ---------------------------------------------------------------------------
  // filter_expression
  // ---------------------------------------------------------------------------

  /** The `k`-th positional parameter, `$k`. */
  function Placeholder(k: nat): string
  {
    "$" + NatToString(k)
  }

  /** `$1`, ..., `$n`. */
  function Placeholders(n: nat): (r: seq<string>)
    ensures |r| == n && forall i :: 0 <= i < n ==> r[i] == Placeholder(i + 1)
  {
    seq(n, i requires 0 <= i < n => Placeholder(i + 1))
  }

  /** The row comparison `(c1, ..., cn) > ($1, ..., $n)`. */
  function FilterExpressionText(columns: seq<string>): string
  {
    "(" + Join(columns, ", ") + ") > (" + Join(Placeholders(|columns|), ", ") + ")"
  }

  /** `filter_expression`: the two lists are built side by side in one pass. */
  method FilterExpression(columns: seq<string>) returns (r: string)
    ensures r == FilterExpressionText(columns)
  {
    var colExpr := "";
    var argExpr := "";
    for i := 0 to |columns|
      invariant colExpr == Join(columns[..i], ", ")
      invariant argExpr == Join(Placeholders(i), ", ")
    {
      if i > 0 {
        colExpr := colExpr + ", ";
        argExpr := argExpr + ", ";
      }
      colExpr := colExpr + columns[i];
      argExpr := argExpr + Placeholder(i + 1);
      JoinSnoc(columns[..i], columns[i], ", ");
      assert columns[..i + 1] == columns[..i] + [columns[i]];
      JoinSnoc(Placeholders(i), Placeholder(i + 1), ", ");
      assert Placeholders(i + 1) == Placeholders(i) + [Placeholder(i + 1)];
    }
    assert columns[..|columns|] == columns;
    r := "(" + colExpr + ") > (" + argExpr + ")";
  }

  /** The placeholders are numbered consecutively from 1 in column order: the digits
      after each `$` read back as its position plus one, so no two are the same. */
  lemma PlaceholdersNumberedFromOne(n: nat, i: nat)
    requires i < n
    ensures |Placeholders(n)[i]| >= 2 && Placeholders(n)[i][0] == '$'
    ensures var digits := Placeholders(n)[i][1..];
            (forall k :: 0 <= k < |digits| ==> IsDigit(digits[k])) && DecimalValue(digits) == i + 1
  {
    var p := Placeholders(n)[i];
    assert p[1..] == NatToString(i + 1);
    NatToStringRoundTrip(i + 1);
  }

  lemma PlaceholdersDistinct(n: nat)
    ensures NoDuplicates(Placeholders(n))
  {
    forall i, j | 0 <= i < j < n
      ensures Placeholders(n)[i] != Placeholders(n)[j]
    {
      if Placeholders(n)[i] == Placeholders(n)[j] {
        assert Placeholder(i + 1)[1..] == NatToString(i + 1);
        assert Placeholder(j + 1)[1..] == NatToString(j + 1);
        NatToStringInjective(i + 1, j + 1);
      }
    }
  }

  /** The filter for three key columns `v1, v2, v3`. */
  lemma FilterExpressionOfThreeColumns()
    ensures FilterExpressionText(["v1", "v2", "v3"]) == "(v1, v2, v3) > ($1, $2, $3)"
  {
    assert ["v1", "v2", "v3"][..2] == ["v1", "v2"];
    assert ["v1", "v2"][..1] == ["v1"];
    assert NatToString(1) == "1" && NatToString(2) == "2" && NatToString(3) == "3";
    var ps := Placeholders(3);
    assert ps[0] == "$1" && ps[1] == "$2" && ps[2] == "$3";
    assert ps == ["$1", "$2", "$3"];
    assert ps[..2] == ["$1", "$2"];
    assert ps[..2][..1] == ["$1"];
    assert Join(["v1", "v2"], ", ") == "v1, v2";
    assert Join(["v1", "v2", "v3"], ", ") == "v1, v2, v3";
    assert Join(["$1", "$2"], ", ") == "$1, $2";
    assert Join(ps, ", ") == "$1, $2, $3";
  }

  // ---------------------------------------------------------------------------
  // The snapshot query of snapshot_read_inner
  // ---------------------------------------------------------------------------

  datatype SnapshotQuery = SnapshotQuery(sql: string, params: seq<Datum>)

  /** The query text and parameters `snapshot_read_inner` sends: every row ordered by the
      primary key, or, after `startPk`, only the rows whose key compares greater. */
  function SnapshotQueryOf(fieldNames: string, table: SchemaTableName, startPk: Option<seq<Datum>>,
                           primaryKeys: seq<string>): (q: SnapshotQuery)
    ensures startPk.None? ==> q.params == []
    ensures startPk.Some? ==> q.params == startPk.value
  {
    var orderKey := Join(primaryKeys, ",");
    var from := "SELECT " + fieldNames + " FROM " + NormalizedTableName(table);
    match startPk
    case None => SnapshotQuery(from + " ORDER BY " + orderKey, [])
    case Some(row) =>
      SnapshotQuery(from + " WHERE " + FilterExpressionText(primaryKeys) + " ORDER BY " + orderKey, row)
  }

  /** Resuming after a key inserts exactly ` WHERE <filter>` before the ORDER BY of the
      full-table query; nothing else in the text changes. */
  lemma ResumeOnlyAddsFilter(fieldNames: string, table: SchemaTableName, row: seq<Datum>, primaryKeys: seq<string>)
    ensures var full := SnapshotQueryOf(fieldNames, table, None, primaryKeys).sql;
            var resumed := SnapshotQueryOf(fieldNames, table, Some(row), primaryKeys).sql;
            var head := |"SELECT " + fieldNames + " FROM " + NormalizedTableName(table)|;
      && head <= |full|
      && full[..head] == "SELECT " + fieldNames + " FROM " + NormalizedTableName(table)
      && resumed == full[..head] + " WHERE " + FilterExpressionText(primaryKeys) + full[head..]
      && full[head..] == " ORDER BY " + Join(primaryKeys, ",")
  {
  }

  /** With a start row of one value per key column, there is one parameter per
      placeholder of the filter. */
  lemma ParamsMatchPlaceholders(fieldNames: string, table: SchemaTableName, row: seq<Datum>, primaryKeys: seq<string>)
    requires |row| == |primaryKeys|
    ensures |SnapshotQueryOf(fieldNames, table, Some(row), primaryKeys).params| == |Placeholders(|primaryKeys|)|
  {
  }
}
