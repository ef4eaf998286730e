/** Restoring one table from its JSON backup: the columns to insert are the
    backup's first-row keys that the table has, `users` rows get a default
    password hash when the backup has none, and one parameterised
    `INSERT OR REPLACE` runs per row. */
module ImportBackup {
  import opened Collections

  /** A JSON value of a backup row. */
  datatype Value = JNull | JNumber(n: int) | JString(s: string) | JBool(b: bool)

  /** A backup row: its own properties in insertion order. */
  type Row = seq<(string, Value)>

  const UsersTable: string := "users"
  const PasswordHash: string := "password_hash"

  /** `Object.keys(row)`. */
  function Keys(row: Row): (r: seq<string>)
    ensures |r| == |row| && forall i :: 0 <= i < |row| ==> r[i] == row[i].0
  {
    if row == [] then []
    else
      assert forall i :: 1 <= i < |row| ==> row[i] == row[1..][i - 1];
      [row[0].0] + Keys(row[1..])
  }

  /** `row[key]`: the value of the property named `key`; `None` is
      `undefined`. */
  function Get(row: Row, key: string): (r: Option<Value>)
    ensures r.None? <==> forall i :: 0 <= i < |row| ==> row[i].0 != key
    ensures r.Some? ==> (key, r.value) in row
  {
    if row == [] then None
    else if row[0].0 == key then Some(row[0].1)
    else
      assert forall i :: 1 <= i < |row| ==> row[i] == row[1..][i - 1];
      Get(row[1..], key)
  }

  /** `row[key] = v`: afterwards `key` reads `v` and every other property
      reads as before. */
  function SetField(row: Row, key: string, v: Value): (r: Row)
    ensures Get(r, key) == Some(v)
    ensures forall k :: k != key ==> Get(r, k) == Get(row, k)
  {
    if row == [] then [(key, v)]
    else if row[0].0 == key then [(key, v)] + row[1..]
    else
      var rest := SetField(row[1..], key, v);
      assert ([row[0]] + rest)[1..] == rest;
      [row[0]] + rest
  }

  /** An existing property keeps its place; a new one goes last. */
  lemma {:induction false} SetFieldKeys(row: Row, key: string, v: Value)
    ensures Keys(SetField(row, key, v)) == if key in Keys(row) then Keys(row) else Keys(row) + [key]
  {
    if row != [] && row[0].0 != key {
      SetFieldKeys(row[1..], key, v);
      assert key in Keys(row) <==> key in Keys(row[1..]);
      assert row == [row[0]] + row[1..];
    }
  }

  function InTable(tableColumns: seq<string>): string -> bool {
    (c: string) => c in tableColumns
  }

  /** `columnsInBackup.filter(col => tableColumns.includes(col))`. */
  function BackupColumns(backupKeys: seq<string>, tableColumns: seq<string>): (r: seq<string>)
    ensures IsSubsequence(r, backupKeys)
    ensures forall c :: c in r <==> c in backupKeys && c in tableColumns
  {
    Filter(InTable(tableColumns), backupKeys)
  }

  /** `users` has a password column that the backup does not fill. */
  predicate NeedsDefaultHash(tableName: string, tableColumns: seq<string>, columns: seq<string>) {
    tableName == UsersTable && PasswordHash in tableColumns && PasswordHash !in columns
  }

  /** `columnsToImport` once the `users` special case has run. */
  function ImportColumns(tableName: string, tableColumns: seq<string>, backupKeys: seq<string>): seq<string> {
    var columns := BackupColumns(backupKeys, tableColumns);
    if NeedsDefaultHash(tableName, tableColumns, columns) then columns + [PasswordHash] else columns
  }

  /** The imported columns are the backup's keys that the table has, in
      backup order, and for `users` a missing `password_hash` put last; no
      other column is ever added. */
  lemma ImportColumnsSpec(tableName: string, tableColumns: seq<string>, backupKeys: seq<string>)
    ensures forall c :: c in ImportColumns(tableName, tableColumns, backupKeys) <==>
                          (c in backupKeys && c in tableColumns) ||
                          (tableName == UsersTable && c == PasswordHash && c in tableColumns)
    ensures tableName != UsersTable ==> ImportColumns(tableName, tableColumns, backupKeys) == BackupColumns(backupKeys, tableColumns)
    ensures NeedsDefaultHash(tableName, tableColumns, BackupColumns(backupKeys, tableColumns)) ==>
              ImportColumns(tableName, tableColumns, backupKeys) == BackupColumns(backupKeys, tableColumns) + [PasswordHash]
    ensures Distinct(backupKeys) ==> Distinct(ImportColumns(tableName, tableColumns, backupKeys))
  {
    var columns := BackupColumns(backupKeys, tableColumns);
    if Distinct(backupKeys) {
      SubsequenceDistinct(columns, backupKeys);
    }
  }

  function Mark(c: string): string {
    "?"
  }

  /** `columnsToImport.map(() => '?').join(',')`. */
  function Placeholders(columns: seq<string>): (r: string)
    ensures |r| == if columns == [] then 0 else 2 * |columns| - 1
    ensures forall i :: 0 <= i < |r| ==> r[i] == if i % 2 == 0 then '?' else ','
  {
    JoinMarks(Map(Mark, columns));
    Join(Map(Mark, columns), ",")
  }

  /** Joining `n` question marks with commas alternates the two, starting
      and ending with a mark. */
  lemma {:induction false} JoinMarks(parts: seq<string>)
    requires forall i :: 0 <= i < |parts| ==> parts[i] == "?"
    ensures |Join(parts, ",")| == if parts == [] then 0 else 2 * |parts| - 1
    ensures forall i :: 0 <= i < |Join(parts, ",")| ==> Join(parts, ",")[i] == if i % 2 == 0 then '?' else ','
  {
    if |parts| > 1 {
      JoinMarks(parts[1..]);
      var rest := Join(parts[1..], ",");
      assert Join(parts, ",") == "?," + rest;
    }
  }

  function ColumnValue(row: Row): string -> Option<Value> {
    (c: string) => Get(row, c)
  }

  /** `columnsToImport.map(col => row[col])`. */
  function RowValues(row: Row, columns: seq<string>): (r: seq<Option<Value>>)
    ensures |r| == |columns| && forall j :: 0 <= j < |columns| ==> r[j] == Get(row, columns[j])
  {
    Map(ColumnValue(row), columns)
  }

  function JoinColumns(columns: seq<string>): string {
    Join(columns, ",")
  }

  function InsertSql(tableName: string, columns: seq<string>): string {
    "INSERT OR REPLACE INTO " + tableName + " (" + JoinColumns(columns) + ") VALUES (" + Placeholders(columns) + ")"
  }

  /** A prepared statement and the parameter lists it runs with, in row
      order. */
  datatype Statement = Statement(sql: string, columns: seq<string>, runs: seq<seq<Option<Value>>>)

  datatype Outcome = NoFile | NoData | Imported(statement: Statement)

  function WithHash(hash: Value): Row -> Row {
    (row: Row) => SetField(row, PasswordHash, hash)
  }

  /** The rows after `data.forEach(row => row.password_hash = hash)`. */
  function WithDefaultHash(rows: seq<Row>, hash: Value): (r: seq<Row>)
    ensures |r| == |rows| && forall i :: 0 <= i < |rows| ==> r[i] == SetField(rows[i], PasswordHash, hash)
  {
    Map(WithHash(hash), rows)
  }

  function ValuesOf(columns: seq<string>): Row -> seq<Option<Value>> {
    (row: Row) => RowValues(row, columns)
  }

  /** What importing a non-empty backup produces, and the rows as the
      import leaves them. */
  function StoredRows(tableName: string, rows: seq<Row>, tableColumns: seq<string>, hash: Value): seq<Row>
    requires |rows| > 0
  {
    if NeedsDefaultHash(tableName, tableColumns, BackupColumns(Keys(rows[0]), tableColumns))
    then WithDefaultHash(rows, hash) else rows
  }

  function ImportPlan(tableName: string, rows: seq<Row>, tableColumns: seq<string>, hash: Value): Statement
    requires |rows| > 0
  {
    var columns := ImportColumns(tableName, tableColumns, Keys(rows[0]));
    Statement(InsertSql(tableName, columns), columns, Map(ValuesOf(columns), StoredRows(tableName, rows, tableColumns, hash)))
  }

  /** Every row runs once, with one value per column in column order: the
      backup's own value (a `password_hash` the backup carries included),
      except that a defaulted `password_hash` is the default hash in every
      row. */
  lemma ImportPlanRuns(tableName: string, rows: seq<Row>, tableColumns: seq<string>, hash: Value)
    requires |rows| > 0
    ensures var plan := ImportPlan(tableName, rows, tableColumns, hash);
            |plan.runs| == |rows| &&
            forall i :: 0 <= i < |rows| ==> |plan.runs[i]| == |plan.columns|
    ensures var plan := ImportPlan(tableName, rows, tableColumns, hash);
            forall i, j :: 0 <= i < |rows| && 0 <= j < |plan.columns| &&
                           (plan.columns[j] != PasswordHash || !NeedsDefaultHash(tableName, tableColumns, BackupColumns(Keys(rows[0]), tableColumns))) ==>
              plan.runs[i][j] == Get(rows[i], plan.columns[j])
    ensures var plan := ImportPlan(tableName, rows, tableColumns, hash);
            NeedsDefaultHash(tableName, tableColumns, BackupColumns(Keys(rows[0]), tableColumns)) ==>
              forall i :: 0 <= i < |rows| ==> plan.runs[i][|plan.columns| - 1] == Some(hash)
  {
    var columns := ImportColumns(tableName, tableColumns, Keys(rows[0]));
    var stored := StoredRows(tableName, rows, tableColumns, hash);
    var runs := Map(ValuesOf(columns), stored);
    assert forall i :: 0 <= i < |rows| ==> runs[i] == RowValues(stored[i], columns);
  }

  /** `data.forEach(row => row.password_hash = hash)`, in place. */
  method SetDefaultHash(data: array<Row>, hash: Value)
    modifies data
    ensures data[..] == WithDefaultHash(old(data[..]), hash)
  {
    var i := 0;
    while i < data.Length
      invariant 0 <= i <= data.Length
      invariant forall j :: 0 <= j < i ==> data[j] == SetField(old(data[j]), PasswordHash, hash)
      invariant forall j :: i <= j < data.Length ==> data[j] == old(data[j])
    {
      data[i] := SetField(data[i], PasswordHash, hash);
      i := i + 1;
    }
  }

  /** `data.forEach(row => stmt.run(columnsToImport.map(col => row[col])))`:
      the parameter lists of the runs, in row order. */
  method RunRows(data: array<Row>, columns: seq<string>) returns (runs: seq<seq<Option<Value>>>)
    ensures runs == Map(ValuesOf(columns), data[..])
  {
    runs := [];
    var k := 0;
    while k < data.Length
      invariant 0 <= k <= data.Length
      invariant |runs| == k
      invariant forall j :: 0 <= j < k ==> runs[j] == RowValues(data[j], columns)
    {
      runs := runs + [RowValues(data[k], columns)];
      k := k + 1;
    }
  }

  /** `importTable`. `fileExists` and `data` stand for the backup file
      (`data` is `null` when the file holds `null`), `tableColumns` for
      `PRAGMA table_info`, and `defaultHash` for the bcrypt hash of the
      default password. The `users` default overwrites `password_hash` in
      the rows themselves. */
  method ImportTable(tableName: string, fileExists: bool, data: array?<Row>, tableColumns: seq<string>, defaultHash: Value)
    returns (outcome: Outcome)
    modifies data
    ensures !fileExists ==> outcome == NoFile
    ensures fileExists && (data == null || data.Length == 0) ==> outcome == NoData
    ensures fileExists && data != null && data.Length > 0 ==>
              outcome == Imported(ImportPlan(tableName, old(data[..]), tableColumns, defaultHash)) &&
              data[..] == StoredRows(tableName, old(data[..]), tableColumns, defaultHash)
    ensures data != null && (!fileExists || data.Length == 0) ==> data[..] == old(data[..])
  {
    if !fileExists {
      return NoFile;
    }
    if data == null || data.Length == 0 {
      return NoData;
    }
    ghost var rows := data[..];
    var columns := BackupColumns(Keys(data[0]), tableColumns);
    if tableName == UsersTable && PasswordHash in tableColumns {
      if PasswordHash !in columns {
        columns := columns + [PasswordHash];
        SetDefaultHash(data, defaultHash);
      }
    }
    assert columns == ImportColumns(tableName, tableColumns, Keys(rows[0]));
    assert data[..] == StoredRows(tableName, rows, tableColumns, defaultHash);
    var runs := RunRows(data, columns);
    outcome := Imported(Statement(InsertSql(tableName, columns), columns, runs));
  }
}
