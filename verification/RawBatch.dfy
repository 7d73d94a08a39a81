/** The RPGB v1 wire format: the server's encoder (src/codec/raw_batch_encoder.cpp) and the
    client's decoder (integration/lib/pg-binary-decode.js). Framing is little-endian, cells are
    written column by column. */
module RawBatch {
  import opened Common

  type byte = x: int | 0 <= x < 256

  const MAGIC: nat := 0x42504752
  const VERSION: nat := 1
  const HEADER: nat := 16

  // ----- Data model -----

  datatype Field = Field(name: string, tableOid: nat, columnId: nat, dataTypeOid: nat, format: int)

  datatype Cell = Null | Value(bytes: seq<byte>)

  datatype ExecStatus = TuplesOk | CommandOk | EmptyQuery | OtherStatus

  /** A PGresult: its status, command tag and affected-row count, columns and rows. */
  datatype PgResult = PgResult(
    status: ExecStatus, command: string, commandTag: string, commandTuples: int,
    fields: seq<Field>, rows: seq<seq<Cell>>)
  {
    /** What libpq guarantees of every result: rectangular, and counts that fit an int. */
    predicate Valid() {
      && |fields| <= INT_MAX && |rows| <= INT_MAX
      && (forall r :: 0 <= r < |rows| ==> |rows[r]| == |fields|)
      && (forall r :: 0 <= r < |rows| ==> AllFit(rows[r]))
    }

    /** PQgetisnull / PQgetvalue: libpq reports a cell outside the result as NULL. */
    function CellAt(row: nat, col: nat): Cell {
      if row < |rows| && col < |rows[row]| then rows[row][col] else Null
    }
  }

  predicate AllFit(cells: seq<Cell>) {
    forall i :: 0 <= i < |cells| ==> FitsInt(cells[i])
  }

  predicate FitsInt(cell: Cell) {
    cell.Value? ==> |cell.bytes| <= INT_MAX
  }

  /** A decoded cell: JavaScript null, or whatever the per-type cell decoder returned. */
  datatype JsCell<V> = JsNull | JsValue(value: V)

  type Row<V> = map<string, JsCell<V>>

  datatype DecodeError =
    | TooShort | BadMagic | BadVersion | ColumnMismatch
    | TruncatedFlag | TruncatedLength | TruncatedValue

  lemma Assoc(a: seq<byte>, b: seq<byte>, c: seq<byte>)
    ensures (a + b) + c == a + (b + c)
  {
  }

  /** `s` occurs in `buf` at `offset`. */
  predicate At(buf: seq<byte>, offset: nat, s: seq<byte>) {
    offset + |s| <= |buf| && buf[offset..offset + |s|] == s
  }

  lemma AtSplit(buf: seq<byte>, offset: nat, a: seq<byte>, b: seq<byte>)
    requires At(buf, offset, a + b)
    ensures At(buf, offset, a) && At(buf, offset + |a|, b)
  {
    var whole := buf[offset..offset + |a + b|];
    assert buf[offset..offset + |a|] == whole[..|a|] == a;
    assert buf[offset + |a|..offset + |a| + |b|] == whole[|a|..] == b;
  }

  // ----- Unsigned little-endian integers -----

  function Pow256(width: nat): (p: nat)
    ensures p > 0
  {
    if width == 0 then 1 else 256 * Pow256(width - 1)
  }

  function LittleEndian(v: nat, width: nat): (b: seq<byte>)
    ensures |b| == width
    decreases width, v
  {
    if width == 0 then [] else [v % 256] + LittleEndian(v / 256, width - 1)
  }

  function ReadLittleEndian(buf: seq<byte>, offset: nat, width: nat): nat
    requires offset + width <= |buf|
    decreases width, buf
  {
    if width == 0 then 0
    else
      var low: int := buf[offset];
      low + 256 * ReadLittleEndian(buf, offset + 1, width - 1)
  }

  lemma {:induction false} LittleEndianRoundTrip(buf: seq<byte>, offset: nat, v: nat, width: nat)
    requires v < Pow256(width)
    requires At(buf, offset, LittleEndian(v, width))
    ensures ReadLittleEndian(buf, offset, width) == v
    decreases width
  {
    if width > 0 {
      var low := v % 256;
      AtSplit(buf, offset, [low], LittleEndian(v / 256, width - 1));
      assert buf[offset] == buf[offset..offset + 1][0] == low;
      LittleEndianRoundTrip(buf, offset + 1, v / 256, width - 1);
    }
  }

  lemma {:induction false} ReadPrefix(buf: seq<byte>, k: nat, offset: nat, width: nat)
    requires offset + width <= k <= |buf|
    ensures ReadLittleEndian(buf[..k], offset, width) == ReadLittleEndian(buf, offset, width)
    decreases width
  {
    if width > 0 {
      ReadPrefix(buf, k, offset + 1, width - 1);
    }
  }

  function U32(v: nat): (b: seq<byte>)
    ensures |b| == 4
  {
    LittleEndian(v, 4)
  }

  function ReadU32(buf: seq<byte>, offset: nat): nat
    requires offset + 4 <= |buf|
  {
    ReadLittleEndian(buf, offset, 4)
  }

  /** Reading back an appended uint32 gives the value, wherever it sits. */
  lemma U32RoundTrip(buf: seq<byte>, offset: nat, v: nat)
    requires v < 0x1_0000_0000 && At(buf, offset, U32(v))
    ensures ReadU32(buf, offset) == v
  {
    LittleEndianRoundTrip(buf, offset, v, 4);
  }

  // ----- The byte image of a batch -----

  function CellBytes(cell: Cell): seq<byte> {
    match cell
    case Null => [1]
    case Value(bytes) => [0] + U32(|bytes|) + bytes
  }

  function ColumnBytes(cells: seq<Cell>): seq<byte> {
    if cells == [] then [] else ColumnBytes(cells[..|cells| - 1]) + CellBytes(cells[|cells| - 1])
  }

  function ColumnsBytes(columns: seq<seq<Cell>>): seq<byte> {
    if columns == [] then [] else ColumnsBytes(columns[..|columns| - 1]) + ColumnBytes(columns[|columns| - 1])
  }

  /** Column `col` of rows [lo, hi). */
  function Column(result: PgResult, lo: nat, hi: nat, col: nat): (cells: seq<Cell>)
    requires lo <= hi
    ensures |cells| == hi - lo
  {
    seq(hi - lo, i requires 0 <= i => result.CellAt(lo + i, col))
  }

  function Columns(result: PgResult, lo: nat, hi: nat): (columns: seq<seq<Cell>>)
    requires lo <= hi
    ensures |columns| == |result.fields|
  {
    seq(|result.fields|, c requires 0 <= c => Column(result, lo, hi, c))
  }

  function Header(numRows: nat, numCols: nat): (b: seq<byte>)
    ensures |b| == HEADER
  {
    U32(MAGIC) + U32(VERSION) + U32(numRows) + U32(numCols)
  }

  /** The RPGB encoding of rows [lo, hi). */
  function BatchBytes(result: PgResult, lo: nat, hi: nat): (b: seq<byte>)
    requires lo <= hi
    ensures |b| >= HEADER
  {
    Header(hi - lo, |result.fields|) + ColumnsBytes(Columns(result, lo, hi))
  }

  // ----- The server's encoder -----

  datatype EncodeError = NullResult | InvalidRange

  method AppendCell(outIn: seq<byte>, cell: Cell) returns (out: seq<byte>)
    ensures out == outIn + CellBytes(cell)
  {
    match cell {
      case Null =>
        out := outIn + [1];
      case Value(bytes) =>
        out := outIn + [0];
        out := out + U32(|bytes|);
        out := out + bytes;
        assert out == outIn + ([0] + U32(|bytes|) + bytes);
    }
  }

  lemma ColumnBytesSnoc(cells: seq<Cell>, n: nat)
    requires n < |cells|
    ensures ColumnBytes(cells[..n + 1]) == ColumnBytes(cells[..n]) + CellBytes(cells[n])
  {
    assert cells[..n + 1][..n] == cells[..n];
  }

  lemma ColumnsBytesSnoc(columns: seq<seq<Cell>>, n: nat)
    requires n < |columns|
    ensures ColumnsBytes(columns[..n + 1]) == ColumnsBytes(columns[..n]) + ColumnBytes(columns[n])
  {
    assert columns[..n + 1][..n] == columns[..n];
  }

  method AppendColumn(outIn: seq<byte>, pg: PgResult, rowBegin: nat, rowEnd: nat, col: nat) returns (out: seq<byte>)
    requires rowBegin <= rowEnd
    ensures out == outIn + ColumnBytes(Column(pg, rowBegin, rowEnd, col))
  {
    hide CellBytes;
    out := outIn;
    ghost var cells := Column(pg, rowBegin, rowEnd, col);
    for row := rowBegin to rowEnd
      invariant out == outIn + ColumnBytes(cells[..row - rowBegin])
    {
      var cell := pg.CellAt(row, col);
      out := AppendCell(out, cell);
      ColumnBytesSnoc(cells, row - rowBegin);
      Assoc(outIn, ColumnBytes(cells[..row - rowBegin]), CellBytes(cell));
    }
    assert cells[..rowEnd - rowBegin] == cells;
  }

  method EncodeRawPgBatch(result: Option<PgResult>, rowBegin: int, rowEnd: int)
    returns (r: Result<seq<byte>, EncodeError>)
    ensures result.None? ==> r == Err(NullResult)
    ensures result.Some? && (rowBegin < 0 || rowEnd < rowBegin) ==> r == Err(InvalidRange)
    ensures result.Some? && 0 <= rowBegin <= rowEnd ==> r == Ok(BatchBytes(result.value, rowBegin, rowEnd))
  {
    if result.None? {
      return Err(NullResult);
    }
    if rowBegin < 0 || rowEnd < rowBegin {
      return Err(InvalidRange);
    }
    var pg := result.value;
    var numCols := |pg.fields|;
    var out := U32(MAGIC) + U32(VERSION) + U32(rowEnd - rowBegin) + U32(numCols);
    ghost var header, columns := out, Columns(pg, rowBegin, rowEnd);
    for col := 0 to numCols
      invariant out == header + ColumnsBytes(columns[..col])
    {
      out := AppendColumn(out, pg, rowBegin, rowEnd, col);
      ColumnsBytesSnoc(columns, col);
      Assoc(header, ColumnsBytes(columns[..col]), ColumnBytes(columns[col]));
    }
    assert columns[..numCols] == columns;
    r := Ok(out);
  }

  // ----- Parsing: the meaning of a byte buffer -----

  /** The offset after the cell at `offset`: a flag byte, then for a non-null cell a length and its bytes. */
  function SkipCell(buf: seq<byte>, offset: nat): (r: Result<nat, DecodeError>)
    ensures r.Ok? ==> offset < r.value <= |buf|
  {
    if offset >= |buf| then Err(TruncatedFlag)
    else if buf[offset] != 0 then Ok(offset + 1)
    else if offset + 5 > |buf| then Err(TruncatedLength)
    else
      var end := offset + 5 + ReadU32(buf, offset + 1);
      if end > |buf| then Err(TruncatedValue) else Ok(end)
  }

  /** The cell at `offset`; NULL where there is none. */
  function ReadCell(buf: seq<byte>, offset: nat): Cell {
    match SkipCell(buf, offset)
    case Err(_) => Null
    case Ok(end) => if buf[offset] != 0 then Null else Value(buf[offset + 5..end])
  }

  /** The offset after `n` consecutive cells. */
  function SkipCells(buf: seq<byte>, offset: nat, n: nat): (r: Result<nat, DecodeError>)
    ensures r.Ok? ==> offset <= r.value
    ensures r.Ok? && offset <= |buf| ==> r.value <= |buf|
  {
    if n == 0 then Ok(offset)
    else
      match SkipCells(buf, offset, n - 1)
      case Err(e) => Err(e)
      case Ok(at) => SkipCell(buf, at)
  }

  /** The offset after `n` columns of `numRows` cells. */
  function SkipColumns(buf: seq<byte>, offset: nat, n: nat, numRows: nat): (r: Result<nat, DecodeError>)
    ensures r.Ok? ==> offset <= r.value
    ensures r.Ok? && offset <= |buf| ==> r.value <= |buf|
  {
    if n == 0 then Ok(offset)
    else
      match SkipColumns(buf, offset, n - 1, numRows)
      case Err(e) => Err(e)
      case Ok(at) => SkipCells(buf, at, numRows)
  }

  lemma {:induction false} CellsErrorSticks(buf: seq<byte>, offset: nat, n: nat, m: nat)
    requires n <= m && SkipCells(buf, offset, n).Err?
    ensures SkipCells(buf, offset, m) == SkipCells(buf, offset, n)
    decreases m
  {
    if n < m {
      CellsErrorSticks(buf, offset, n, m - 1);
    }
  }

  lemma {:induction false} ColumnsErrorSticks(buf: seq<byte>, offset: nat, n: nat, m: nat, numRows: nat)
    requires n <= m && SkipColumns(buf, offset, n, numRows).Err?
    ensures SkipColumns(buf, offset, m, numRows) == SkipColumns(buf, offset, n, numRows)
    decreases m
  {
    if n < m {
      ColumnsErrorSticks(buf, offset, n, m - 1, numRows);
    }
  }

  /** Cell `i` of the column starting at `offset`. */
  function CellOfColumn(buf: seq<byte>, offset: nat, i: nat): Cell {
    match SkipCells(buf, offset, i)
    case Err(_) => Null
    case Ok(at) => ReadCell(buf, at)
  }

  /** The cell the buffer holds for row `row` and column `col`. */
  function CellOf(buf: seq<byte>, numRows: nat, row: nat, col: nat): Cell {
    match SkipColumns(buf, HEADER, col, numRows)
    case Err(_) => Null
    case Ok(at) => CellOfColumn(buf, at, row)
  }

  // ----- Rows as JavaScript objects -----

  function JsOf<V>(field: Field, cell: Cell, decode: (Field, seq<byte>) -> V): JsCell<V> {
    match cell
    case Null => JsNull
    case Value(bytes) => JsValue(decode(field, bytes))
  }

  /** The object built by assigning the first `n` cells to their column names from left to right. */
  function RowUpTo<V>(fields: seq<Field>, cells: seq<Cell>, n: nat, decode: (Field, seq<byte>) -> V): Row<V>
    requires n <= |fields| && n <= |cells|
  {
    if n == 0 then map[]
    else RowUpTo(fields, cells, n - 1, decode)[fields[n - 1].name := JsOf(fields[n - 1], cells[n - 1], decode)]
  }

  function RowOf<V>(fields: seq<Field>, cells: seq<Cell>, decode: (Field, seq<byte>) -> V): Row<V>
    requires |cells| == |fields|
  {
    RowUpTo(fields, cells, |fields|, decode)
  }

  lemma {:induction false} RowDependsOnPrefix<V>(
    fields: seq<Field>, a: seq<Cell>, b: seq<Cell>, n: nat, decode: (Field, seq<byte>) -> V)
    requires n <= |fields| && n <= |a| && n <= |b|
    requires forall c :: 0 <= c < n ==> a[c] == b[c]
    ensures RowUpTo(fields, a, n, decode) == RowUpTo(fields, b, n, decode)
  {
    if n > 0 {
      RowDependsOnPrefix(fields, a, b, n - 1, decode);
    }
  }

  /** The keys of a row object are the column names. */
  lemma {:induction false} RowKeys<V>(fields: seq<Field>, cells: seq<Cell>, n: nat, name: string, decode: (Field, seq<byte>) -> V)
    requires n <= |fields| && n <= |cells|
    ensures name in RowUpTo(fields, cells, n, decode) <==> exists c :: 0 <= c < n && fields[c].name == name
  {
    if n > 0 {
      RowKeys(fields, cells, n - 1, name, decode);
    }
  }

  /** A repeated column name keeps its last column. */
  lemma {:induction false} RowKeepsLastColumn<V>(
    fields: seq<Field>, cells: seq<Cell>, n: nat, c: nat, decode: (Field, seq<byte>) -> V)
    requires c < n <= |fields| && n <= |cells|
    requires forall d :: c < d < n ==> fields[d].name != fields[c].name
    ensures fields[c].name in RowUpTo(fields, cells, n, decode)
    ensures RowUpTo(fields, cells, n, decode)[fields[c].name] == JsOf(fields[c], cells[c], decode)
  {
    if c < n - 1 {
      RowKeepsLastColumn(fields, cells, n - 1, c, decode);
    }
  }

  /** `row` holds this cell under this name: null for NULL and only for NULL, else the decoded bytes, however few. */
  predicate HoldsCell<V(==)>(row: Row<V>, field: Field, cell: Cell, decode: (Field, seq<byte>) -> V) {
    && field.name in row
    && (row[field.name] == JsNull <==> cell == Null)
    && (cell.Value? ==> row[field.name] == JsValue(decode(field, cell.bytes)))
  }

  /** Column c is the last of the first n with its name. */
  predicate LastOfItsName(fields: seq<Field>, n: nat, c: nat) {
    c < n <= |fields| && forall d :: c < d < n ==> fields[d].name != fields[c].name
  }

  /** What a row object holds for a cell. */
  lemma RowHoldsCell<V>(fields: seq<Field>, cells: seq<Cell>, n: nat, c: nat, decode: (Field, seq<byte>) -> V)
    requires n <= |cells| && LastOfItsName(fields, n, c)
    ensures HoldsCell(RowUpTo(fields, cells, n, decode), fields[c], cells[c], decode)
  {
    RowKeepsLastColumn(fields, cells, n, c, decode);
  }

  function RowCells(buf: seq<byte>, numCols: nat, numRows: nat, row: nat): seq<Cell> {
    seq(numCols, c requires 0 <= c => CellOf(buf, numRows, row, c))
  }

  function DecodedRows<V>(buf: seq<byte>, fields: seq<Field>, numRows: nat, decode: (Field, seq<byte>) -> V)
    : (rows: seq<Row<V>>)
    ensures |rows| == numRows
  {
    seq(numRows, r requires 0 <= r => RowOf(fields, RowCells(buf, |fields|, numRows, r), decode))
  }

  /** What a payload means to the client, given the schema's fields. An empty payload has no rows. */
  function DecodeBatch<V>(payload: seq<byte>, fields: seq<Field>, decode: (Field, seq<byte>) -> V)
    : Result<seq<Row<V>>, DecodeError>
  {
    if payload == [] then Ok([])
    else if |payload| < HEADER then Err(TooShort)
    else if ReadU32(payload, 0) != MAGIC then Err(BadMagic)
    else if ReadU32(payload, 4) != VERSION then Err(BadVersion)
    else if ReadU32(payload, 12) != |fields| then Err(ColumnMismatch)
    else
      var numRows := ReadU32(payload, 8);
      match SkipColumns(payload, HEADER, |fields|, numRows)
      case Err(e) => Err(e)
      case Ok(_) => Ok(DecodedRows(payload, fields, numRows, decode))
  }

  // ----- The client's decoder -----

  /** One pass of the decoder's inner loop: reads a column and assigns it into the row objects. */
  method DecodeColumn<V>(
    buffer: seq<byte>, start: nat, field: Field, rowsIn: seq<Row<V>>, decode: (Field, seq<byte>) -> V)
    returns (rows: seq<Row<V>>, r: Result<nat, DecodeError>)
    ensures r == SkipCells(buffer, start, |rowsIn|)
    ensures r.Ok? ==> |rows| == |rowsIn|
    ensures r.Ok? ==> forall i :: 0 <= i < |rows| ==>
              var cell := CellOfColumn(buffer, start, i);
              rows[i] == rowsIn[i][field.name := if cell.Null? then JsNull else JsValue(decode(field, cell.bytes))]
  {
    rows := rowsIn;
    var offset: nat := start;
    for row := 0 to |rowsIn|
      invariant SkipCells(buffer, start, row) == Ok(offset)
      invariant |rows| == |rowsIn|
      invariant forall i :: 0 <= i < row ==>
                  rows[i] == rowsIn[i][field.name := JsOf(field, CellOfColumn(buffer, start, i), decode)]
      invariant forall i :: row <= i < |rows| ==> rows[i] == rowsIn[i]
    {
      if SkipCell(buffer, offset).Err? {
        CellsErrorSticks(buffer, start, row + 1, |rowsIn|);
      }
      ghost var at := offset;
      if offset >= |buffer| {
        return rows, Err(TruncatedFlag);
      }
      var isNull := buffer[offset] != 0;
      offset := offset + 1;
      if isNull {
        rows := rows[row := rows[row][field.name := JsNull]];
        continue;
      }
      if offset + 4 > |buffer| {
        return rows, Err(TruncatedLength);
      }
      var valueLen := ReadU32(buffer, offset);
      offset := offset + 4;
      if offset + valueLen > |buffer| {
        return rows, Err(TruncatedValue);
      }
      var valueBytes := buffer[offset..offset + valueLen];
      offset := offset + valueLen;
      assert ReadCell(buffer, at) == Value(valueBytes);
      rows := rows[row := rows[row][field.name := JsValue(decode(field, valueBytes))]];
    }
    r := Ok(offset);
  }

  method DecodeRawPgBatch<V>(payload: seq<byte>, fields: seq<Field>, decode: (Field, seq<byte>) -> V)
    returns (r: Result<seq<Row<V>>, DecodeError>)
    ensures r == DecodeBatch(payload, fields, decode)
  {
    if payload == [] {
      return Ok([]);
    }
    if |payload| < HEADER {
      return Err(TooShort);
    }
    if ReadU32(payload, 0) != MAGIC {
      return Err(BadMagic);
    }
    if ReadU32(payload, 4) != VERSION {
      return Err(BadVersion);
    }
    var numRows := ReadU32(payload, 8);
    var numCols := ReadU32(payload, 12);
    if numCols != |fields| {
      return Err(ColumnMismatch);
    }
    var rows: seq<Row<V>> := seq(numRows, _ => map[]);
    var offset := HEADER;
    for col := 0 to numCols
      invariant SkipColumns(payload, HEADER, col, numRows) == Ok(offset)
      invariant |rows| == numRows
      invariant forall i :: 0 <= i < numRows ==>
                  rows[i] == RowUpTo(fields, RowCells(payload, col, numRows, i), col, decode)
    {
      var filled, next := DecodeColumn(payload, offset, fields[col], rows, decode);
      if next.Err? {
        ColumnsErrorSticks(payload, HEADER, col + 1, numCols, numRows);
        return Err(next.error);
      }
      forall i | 0 <= i < numRows
        ensures filled[i] == RowUpTo(fields, RowCells(payload, col + 1, numRows, i), col + 1, decode)
      {
        RowGrows(payload, fields, col, numRows, i, decode);
      }
      rows, offset := filled, next.value;
    }
    assert rows == DecodedRows(payload, fields, numRows, decode);
    r := Ok(rows);
  }

  /** Reading one more column appends one more cell to each row. */
  lemma RowGrows<V>(buf: seq<byte>, fields: seq<Field>, col: nat, numRows: nat, row: nat, decode: (Field, seq<byte>) -> V)
    requires SkipColumns(buf, HEADER, col + 1, numRows).Ok? && row < numRows && col < |fields|
    ensures SkipColumns(buf, HEADER, col, numRows).Ok?
    ensures RowUpTo(fields, RowCells(buf, col + 1, numRows, row), col + 1, decode)
         == RowUpTo(fields, RowCells(buf, col, numRows, row), col, decode)
              [fields[col].name := JsOf(fields[col],
                CellOfColumn(buf, SkipColumns(buf, HEADER, col, numRows).value, row), decode)]
  {
    RowDependsOnPrefix(fields, RowCells(buf, col, numRows, row), RowCells(buf, col + 1, numRows, row), col, decode);
  }

  // ----- Round trip -----

  lemma CellRoundTrip(buf: seq<byte>, offset: nat, cell: Cell)
    requires FitsInt(cell) && At(buf, offset, CellBytes(cell))
    ensures SkipCell(buf, offset) == Ok(offset + |CellBytes(cell)|)
    ensures ReadCell(buf, offset) == cell
  {
    if cell.Value? {
      var length := U32(|cell.bytes|);
      AtSplit(buf, offset, [0] + length, cell.bytes);
      AtSplit(buf, offset, [0], length);
      U32RoundTrip(buf, offset + 1, |cell.bytes|);
      assert buf[offset] == buf[offset..offset + 1][0] == 0;
    } else {
      assert buf[offset] == buf[offset..offset + 1][0] == 1;
    }
  }

  lemma CellEnds(buf: seq<byte>, offset: nat, n: nat, init: seq<byte>, cell: Cell)
    requires FitsInt(cell) && At(buf, offset, init + CellBytes(cell))
    requires SkipCells(buf, offset, n) == Ok(offset + |init|)
    ensures SkipCells(buf, offset, n + 1) == Ok(offset + |init + CellBytes(cell)|)
  {
    hide At, SkipCell, ReadCell, CellBytes, FitsInt;
    AtSplit(buf, offset, init, CellBytes(cell));
    CellRoundTrip(buf, offset + |init|, cell);
  }

  lemma {:induction false} ColumnEnds(buf: seq<byte>, offset: nat, cells: seq<Cell>)
    requires AllFit(cells) && At(buf, offset, ColumnBytes(cells))
    ensures SkipCells(buf, offset, |cells|) == Ok(offset + |ColumnBytes(cells)|)
  {
    hide At, SkipCell, CellBytes, FitsInt;
    if cells == [] {
      hide AllFit;
      assert SkipCells(buf, offset, 0) == Ok(offset) && ColumnBytes([]) == [];
    } else {
      hide SkipCells;
      var n := |cells| - 1;
      AtSplit(buf, offset, ColumnBytes(cells[..n]), CellBytes(cells[n]));
      ColumnEnds(buf, offset, cells[..n]);
      CellEnds(buf, offset, n, ColumnBytes(cells[..n]), cells[n]);
    }
  }

  lemma {:induction false} ColumnRoundTrip(buf: seq<byte>, offset: nat, cells: seq<Cell>, i: nat)
    requires AllFit(cells) && At(buf, offset, ColumnBytes(cells)) && i < |cells|
    ensures CellOfColumn(buf, offset, i) == cells[i]
  {
    hide At, SkipCell, ReadCell, CellBytes;
    var front, cell := cells[..|cells| - 1], cells[|cells| - 1];
    var init, image := ColumnBytes(front), CellBytes(cell);
    AtSplit(buf, offset, init, image);
    if i < |front| {
      ColumnRoundTrip(buf, offset, front, i);
    } else {
      ColumnEnds(buf, offset, front);
      CellRoundTrip(buf, offset + |init|, cell);
    }
  }

  /** `columns` are columns of `numRows` cells that fit the format. */
  predicate Columnar(columns: seq<seq<Cell>>, numRows: nat) {
    forall c :: 0 <= c < |columns| ==> |columns[c]| == numRows && AllFit(columns[c])
  }

  lemma ColumnarInit(columns: seq<seq<Cell>>, numRows: nat)
    requires columns != [] && Columnar(columns, numRows)
    ensures Columnar(columns[..|columns| - 1], numRows)
    ensures |columns[|columns| - 1]| == numRows && AllFit(columns[|columns| - 1])
  {
  }

  lemma {:induction false} ColumnsEnd(buf: seq<byte>, columns: seq<seq<Cell>>, numRows: nat)
    requires Columnar(columns, numRows)
    requires At(buf, HEADER, ColumnsBytes(columns))
    ensures SkipColumns(buf, HEADER, |columns|, numRows) == Ok(HEADER + |ColumnsBytes(columns)|)
  {
    hide At, SkipCells, ColumnBytes, AllFit;
    if columns != [] {
      ColumnarInit(columns, numRows);
      hide Columnar;
      var front, column := columns[..|columns| - 1], columns[|columns| - 1];
      var init, image := ColumnsBytes(front), ColumnBytes(column);
      AtSplit(buf, HEADER, init, image);
      ColumnsEnd(buf, front, numRows);
      ColumnEnds(buf, HEADER + |init|, column);
      assert |columns| == |front| + 1 && |column| == numRows;
      assert SkipColumns(buf, HEADER, |front|, numRows) == Ok(HEADER + |init|);
      assert SkipColumns(buf, HEADER, |columns|, numRows) == SkipCells(buf, HEADER + |init|, numRows);
    }
  }

  lemma {:induction false} ColumnsRoundTrip(buf: seq<byte>, columns: seq<seq<Cell>>, numRows: nat, r: nat, c: nat)
    requires Columnar(columns, numRows)
    requires At(buf, HEADER, ColumnsBytes(columns)) && c < |columns| && r < numRows
    ensures |columns[c]| == numRows && CellOf(buf, numRows, r, c) == columns[c][r]
  {
    hide At, SkipCells, CellOfColumn, ColumnBytes, AllFit, SkipColumns;
    ColumnarInit(columns, numRows);
    assert |columns[c]| == numRows;
    hide Columnar;
    var front, column := columns[..|columns| - 1], columns[|columns| - 1];
    var init, image := ColumnsBytes(front), ColumnBytes(column);
    assert ColumnsBytes(columns) == init + image;
    hide ColumnsBytes;
    AtSplit(buf, HEADER, init, image);
    if c < |front| {
      ColumnsRoundTrip(buf, front, numRows, r, c);
    } else {
      ColumnsEnd(buf, front, numRows);
      ColumnRoundTrip(buf, HEADER + |init|, column, r);
    }
  }

  lemma HeaderRoundTrip(buf: seq<byte>, numRows: nat, numCols: nat)
    requires At(buf, 0, Header(numRows, numCols)) && numRows <= INT_MAX && numCols <= INT_MAX
    ensures ReadU32(buf, 0) == MAGIC && ReadU32(buf, 4) == VERSION
    ensures ReadU32(buf, 8) == numRows && ReadU32(buf, 12) == numCols
  {
    AtSplit(buf, 0, U32(MAGIC) + U32(VERSION) + U32(numRows), U32(numCols));
    AtSplit(buf, 0, U32(MAGIC) + U32(VERSION), U32(numRows));
    AtSplit(buf, 0, U32(MAGIC), U32(VERSION));
    U32RoundTrip(buf, 0, MAGIC);
    U32RoundTrip(buf, 4, VERSION);
    U32RoundTrip(buf, 8, numRows);
    U32RoundTrip(buf, 12, numCols);
  }

  lemma ColumnsFit(result: PgResult, lo: nat, hi: nat, c: nat)
    requires result.Valid() && lo <= hi <= |result.rows| && c < |result.fields|
    ensures AllFit(Columns(result, lo, hi)[c])
  {
    forall i | 0 <= i < hi - lo
      ensures FitsInt(Column(result, lo, hi, c)[i])
    {
      assert AllFit(result.rows[lo + i]);
      assert Column(result, lo, hi, c)[i] == result.CellAt(lo + i, c) == result.rows[lo + i][c];
    }
  }

  /** Where an encoding sits inside itself followed by anything. */
  lemma BatchLayout(result: PgResult, lo: nat, hi: nat, tail: seq<byte>)
    requires result.Valid() && lo <= hi <= |result.rows|
    ensures var buf := BatchBytes(result, lo, hi) + tail;
            && At(buf, 0, Header(hi - lo, |result.fields|))
            && At(buf, HEADER, ColumnsBytes(Columns(result, lo, hi)))
    ensures Columnar(Columns(result, lo, hi), hi - lo)
    ensures |BatchBytes(result, lo, hi)| == HEADER + |ColumnsBytes(Columns(result, lo, hi))|
  {
    var header, body := Header(hi - lo, |result.fields|), ColumnsBytes(Columns(result, lo, hi));
    assert At(header + body + tail, 0, header + body);
    AtSplit(header + body + tail, 0, header, body);
    forall c | 0 <= c < |result.fields|
      ensures |Columns(result, lo, hi)[c]| == hi - lo && AllFit(Columns(result, lo, hi)[c])
    {
      ColumnsFit(result, lo, hi, c);
    }
  }

  lemma BatchHeader(result: PgResult, lo: nat, hi: nat, tail: seq<byte>)
    requires result.Valid() && lo <= hi <= |result.rows|
    ensures var buf := BatchBytes(result, lo, hi) + tail;
            && ReadU32(buf, 0) == MAGIC && ReadU32(buf, 4) == VERSION
            && ReadU32(buf, 8) == hi - lo && ReadU32(buf, 12) == |result.fields|
  {
    hide At, ColumnsBytes, Columnar, Columns, ReadU32, BatchBytes, Header, AllFit;
    BatchLayout(result, lo, hi, tail);
    HeaderRoundTrip(BatchBytes(result, lo, hi) + tail, hi - lo, |result.fields|);
  }

  lemma BatchBody(result: PgResult, lo: nat, hi: nat, tail: seq<byte>)
    requires result.Valid() && lo <= hi <= |result.rows|
    ensures SkipColumns(BatchBytes(result, lo, hi) + tail, HEADER, |result.fields|, hi - lo)
         == Ok(|BatchBytes(result, lo, hi)|)
  {
    hide At, ColumnsBytes, SkipColumns, Columnar, Columns, BatchBytes, Header, AllFit;
    BatchLayout(result, lo, hi, tail);
    ColumnsEnd(BatchBytes(result, lo, hi) + tail, Columns(result, lo, hi), hi - lo);
  }

  /** The decoder accepts an encoding followed by anything, and stops exactly at its end. */
  lemma BatchEnds(result: PgResult, lo: nat, hi: nat, tail: seq<byte>)
    requires result.Valid() && lo <= hi <= |result.rows|
    ensures var buf := BatchBytes(result, lo, hi) + tail;
            && ReadU32(buf, 0) == MAGIC && ReadU32(buf, 4) == VERSION
            && ReadU32(buf, 8) == hi - lo && ReadU32(buf, 12) == |result.fields|
            && SkipColumns(buf, HEADER, |result.fields|, hi - lo) == Ok(|BatchBytes(result, lo, hi)|)
  {
    hide ReadU32, SkipColumns, BatchBytes;
    BatchHeader(result, lo, hi, tail);
    BatchBody(result, lo, hi, tail);
  }

  /** The decoder recovers every cell of an encoding at its row and column. */
  lemma BatchCells(result: PgResult, lo: nat, hi: nat, tail: seq<byte>, r: nat, c: nat)
    requires result.Valid() && lo <= hi <= |result.rows| && r < hi - lo && c < |result.fields|
    ensures CellOf(BatchBytes(result, lo, hi) + tail, hi - lo, r, c) == result.rows[lo + r][c]
  {
    var buf := BatchBytes(result, lo, hi) + tail;
    BatchLayout(result, lo, hi, tail);
    assert Columns(result, lo, hi)[c][r] == result.CellAt(lo + r, c) == result.rows[lo + r][c];
    hide At, ColumnsBytes, CellOf, Columnar, BatchBytes, Columns, AllFit;
    ColumnsRoundTrip(buf, Columns(result, lo, hi), hi - lo, r, c);
  }

  lemma BatchRow(result: PgResult, lo: nat, hi: nat, tail: seq<byte>, r: nat)
    requires result.Valid() && lo <= hi <= |result.rows| && r < hi - lo
    ensures RowCells(BatchBytes(result, lo, hi) + tail, |result.fields|, hi - lo, r) == result.rows[lo + r]
  {
    hide BatchBytes, CellOf, AllFit;
    var cells := RowCells(BatchBytes(result, lo, hi) + tail, |result.fields|, hi - lo, r);
    forall c | 0 <= c < |result.fields|
      ensures cells[c] == result.rows[lo + r][c]
    {
      BatchCells(result, lo, hi, tail, r, c);
    }
  }

  /** The rows [lo, hi) of a result as the client's row objects. */
  function RowObjects<V>(result: PgResult, lo: nat, hi: nat, decode: (Field, seq<byte>) -> V): (rows: seq<Row<V>>)
    requires result.Valid() && lo <= hi <= |result.rows|
    ensures |rows| == hi - lo
  {
    seq(hi - lo, r requires 0 <= r < hi - lo => RowOf(result.fields, result.rows[lo + r], decode))
  }

  /** Decoding an encoded slice gives its rows in order, whatever bytes follow the encoding. */
  lemma BatchRoundTrip<V>(result: PgResult, lo: nat, hi: nat, tail: seq<byte>, decode: (Field, seq<byte>) -> V)
    requires result.Valid() && lo <= hi <= |result.rows|
    ensures DecodeBatch(BatchBytes(result, lo, hi) + tail, result.fields, decode)
         == Ok(RowObjects(result, lo, hi, decode))
  {
    BatchEnds(result, lo, hi, tail);
    hide BatchBytes, ReadU32, SkipColumns, DecodedRows, RowObjects;
    SameRows(result, lo, hi, tail, decode);
  }

  lemma SameRows<V>(result: PgResult, lo: nat, hi: nat, tail: seq<byte>, decode: (Field, seq<byte>) -> V)
    requires result.Valid() && lo <= hi <= |result.rows|
    ensures DecodedRows(BatchBytes(result, lo, hi) + tail, result.fields, hi - lo, decode)
         == RowObjects(result, lo, hi, decode)
  {
    hide BatchBytes, CellOf, RowOf, RowCells, AllFit;
    var buf, n := BatchBytes(result, lo, hi) + tail, hi - lo;
    forall r | 0 <= r < n
      ensures RowCells(buf, |result.fields|, n, r) == result.rows[lo + r]
    {
      BatchRow(result, lo, hi, tail, r);
    }
  }

  lemma BatchDecodes<V>(result: PgResult, lo: nat, hi: nat, decode: (Field, seq<byte>) -> V)
    requires result.Valid() && lo <= hi <= |result.rows|
    ensures DecodeBatch(BatchBytes(result, lo, hi), result.fields, decode) == Ok(RowObjects(result, lo, hi, decode))
  {
    BatchRoundTrip(result, lo, hi, [], decode);
    hide DecodeBatch, BatchBytes;
    assert BatchBytes(result, lo, hi) + [] == BatchBytes(result, lo, hi);
  }

  /** The values of decoded rows: every cell of an encoded slice comes back under its column's name, NULL as null and
      everything else, the empty value included, as its decoded bytes. */
  lemma BatchValues<V>(result: PgResult, lo: nat, hi: nat, tail: seq<byte>, r: nat, c: nat, decode: (Field, seq<byte>) -> V)
    requires result.Valid() && lo <= hi <= |result.rows| && r < hi - lo && LastOfItsName(result.fields, |result.fields|, c)
    ensures var rows := DecodeBatch(BatchBytes(result, lo, hi) + tail, result.fields, decode);
            && rows.Ok? && |rows.value| == hi - lo
            && HoldsCell(rows.value[r], result.fields[c], result.rows[lo + r][c], decode)
  {
    hide DecodeBatch, BatchBytes, HoldsCell, AllFit;
    BatchRoundTrip(result, lo, hi, tail, decode);
    RowHoldsCell(result.fields, result.rows[lo + r], |result.fields|, c, decode);
    assert RowObjects(result, lo, hi, decode)[r] == RowOf(result.fields, result.rows[lo + r], decode);
  }

  /** The wire format, byte by byte: "RGPB", version 1, two rows, two columns, then the first column's NULL and empty value
      and the second column's "ab" and NULL. */
  lemma WireFormat(f: Field, g: Field)
    ensures var cells := [[Null, Value([97, 98])], [Value([]), Null]];
            BatchBytes(PgResult(TuplesOk, "", "", 0, [f, g], cells), 0, 2)
            == [0x52, 0x47, 0x50, 0x42, 1, 0, 0, 0, 2, 0, 0, 0, 2, 0, 0, 0] + [1, 0, 0, 0, 0, 0] + [0, 2, 0, 0, 0, 97, 98, 1]
  {
    var cells := [[Null, Value([97, 98])], [Value([]), Null]];
    var result := PgResult(TuplesOk, "", "", 0, [f, g], cells);
    var left, right := [Null, Value([])], [Value([97, 98]), Null];
    WireHeader();
    assert Column(result, 0, 2, 0) == left && Column(result, 0, 2, 1) == right;
    assert Columns(result, 0, 2) == [left, right];
    WireColumns(left, right);
    hide Header, ColumnsBytes, Columns;
  }

  lemma WireHeader()
    ensures Header(2, 2) == [0x52, 0x47, 0x50, 0x42, 1, 0, 0, 0, 2, 0, 0, 0, 2, 0, 0, 0]
    ensures U32(0) == [0, 0, 0, 0] && U32(2) == [2, 0, 0, 0]
  {
    WireU32(0x52, 0x47, 0x50, 0x42);
    WireU32(1, 0, 0, 0);
    WireU32(2, 0, 0, 0);
    WireU32(0, 0, 0, 0);
    hide U32;
  }

  /** Little-endian: the lowest byte first. */
  lemma WireU32(a: byte, b: byte, c: byte, d: byte)
    ensures U32(a as int + 0x100 * b as int + 0x1_0000 * c as int + 0x100_0000 * d as int) == [a, b, c, d]
  {
    var v3: nat := d as int;
    var v2: nat := c as int + 0x100 * v3;
    var v1: nat := b as int + 0x100 * v2;
    var v0: nat := a as int + 0x100 * v1;
    hide LittleEndian;
    LowByteFirst(d, 0, 0);
    LowByteFirst(c, v3, 1);
    LowByteFirst(b, v2, 2);
    LowByteFirst(a, v1, 3);
  }

  lemma LowByteFirst(low: byte, rest: nat, width: nat)
    ensures LittleEndian(low as int + 0x100 * rest, width + 1) == [low] + LittleEndian(rest, width)
  {
    var v: nat := low as int + 0x100 * rest;
    assert v % 256 == low as int && v / 256 == rest;
  }

  lemma WireColumns(left: seq<Cell>, right: seq<Cell>)
    requires left == [Null, Value([])] && right == [Value([97, 98]), Null]
    ensures ColumnsBytes([left, right]) == [1, 0, 0, 0, 0, 0] + [0, 2, 0, 0, 0, 97, 98, 1]
  {
    WireHeader();
    hide U32;
    WirePair(left[0], left[1]);
    WirePair(right[0], right[1]);
    assert left == [left[0], left[1]] && right == [right[0], right[1]];
    assert [left, right][..1] == [left] && [left][..0] == [];
    assert ColumnsBytes([left]) == ColumnsBytes([]) + ColumnBytes(left);
    assert ColumnBytes(left) == [1, 0, 0, 0, 0, 0];
    assert ColumnBytes(right) == [0, 2, 0, 0, 0, 97, 98, 1];
  }

  lemma WirePair(a: Cell, b: Cell)
    ensures ColumnBytes([a, b]) == CellBytes(a) + CellBytes(b)
  {
    hide CellBytes;
    assert [a, b][..1] == [a] && [a][..0] == [];
    assert ColumnBytes([a]) == ColumnBytes([]) + CellBytes(a);
  }

  /** What the header of a payload decides before any cell is read. */
  lemma HeaderDecides<V>(payload: seq<byte>, fields: seq<Field>, decode: (Field, seq<byte>) -> V)
    ensures payload == [] ==> DecodeBatch(payload, fields, decode) == Ok([])
    ensures 0 < |payload| < 16 ==> DecodeBatch(payload, fields, decode) == Err(TooShort)
    ensures |payload| >= 16 ==>
              var magic, version, numCols := ReadU32(payload, 0), ReadU32(payload, 4), ReadU32(payload, 12);
              && (magic != 0x42504752 <==> DecodeBatch(payload, fields, decode) == Err(BadMagic))
              && (magic == 0x42504752 && version != 1 <==> DecodeBatch(payload, fields, decode) == Err(BadVersion))
              && (magic == 0x42504752 && version == 1 && numCols != |fields| <==>
                    DecodeBatch(payload, fields, decode) == Err(ColumnMismatch))
  {
    hide ReadU32, DecodedRows, SkipColumns;
    if |payload| >= 16 {
      CellErrors(payload, |fields|, ReadU32(payload, 8));
    }
  }

  /** Errors while skipping cells are truncations. */
  lemma {:induction false} CellErrors(buf: seq<byte>, m: nat, n: nat)
    ensures SkipColumns(buf, HEADER, m, n).Err? ==>
              SkipColumns(buf, HEADER, m, n).error in {TruncatedFlag, TruncatedLength, TruncatedValue}
  {
    if m > 0 {
      CellErrors(buf, m - 1, n);
      if SkipColumns(buf, HEADER, m - 1, n).Ok? {
        ColumnErrors(buf, SkipColumns(buf, HEADER, m - 1, n).value, n);
      }
      hide SkipCells;
    }
  }

  lemma {:induction false} ColumnErrors(buf: seq<byte>, offset: nat, n: nat)
    ensures SkipCells(buf, offset, n).Err? ==>
              SkipCells(buf, offset, n).error in {TruncatedFlag, TruncatedLength, TruncatedValue}
  {
    if n > 0 {
      ColumnErrors(buf, offset, n - 1);
    }
  }

  // ----- Size -----

  function CellSize(cell: Cell): nat {
    if cell.Null? then 1 else 5 + |cell.bytes|
  }

  function CellsSize(cells: seq<Cell>): nat {
    if cells == [] then 0 else CellsSize(cells[..|cells| - 1]) + CellSize(cells[|cells| - 1])
  }

  /** Sum of the cell sizes of rows [lo, hi), taken row by row. */
  function RowsSize(rows: seq<seq<Cell>>): nat {
    if rows == [] then 0 else RowsSize(rows[..|rows| - 1]) + CellsSize(rows[|rows| - 1])
  }

  lemma {:induction false} ColumnBytesSize(cells: seq<Cell>)
    ensures |ColumnBytes(cells)| == CellsSize(cells)
  {
    if cells != [] {
      ColumnBytesSize(cells[..|cells| - 1]);
    }
  }

  /** One more row at the bottom adds its cells' sizes. */
  lemma {:induction false} ColumnsSizeStep(above: seq<seq<Cell>>, row: seq<Cell>, columns: seq<seq<Cell>>)
    requires |above| == |row| == |columns|
    requires forall c :: 0 <= c < |columns| ==> columns[c] == above[c] + [row[c]]
    ensures |ColumnsBytes(columns)| == |ColumnsBytes(above)| + CellsSize(row)
  {
    if columns != [] {
      var n := |columns| - 1;
      ColumnsSizeStep(above[..n], row[..n], columns[..n]);
      ColumnBytesSize(columns[n]);
      ColumnBytesSize(above[n]);
      assert columns[n][..|above[n]|] == above[n];
    }
  }

  lemma {:induction false} EmptyColumns(columns: seq<seq<Cell>>)
    requires forall c :: 0 <= c < |columns| ==> columns[c] == []
    ensures ColumnsBytes(columns) == []
  {
    if columns != [] {
      EmptyColumns(columns[..|columns| - 1]);
    }
  }

  lemma ColumnsGrow(result: PgResult, lo: nat, hi: nat, c: nat)
    requires result.Valid() && lo < hi <= |result.rows| && c < |result.fields|
    ensures Columns(result, lo, hi)[c] == Columns(result, lo, hi - 1)[c] + [result.rows[hi - 1][c]]
  {
    assert Column(result, lo, hi, c)[hi - 1 - lo] == result.CellAt(hi - 1, c);
  }

  lemma BodyStep(result: PgResult, lo: nat, hi: nat)
    requires result.Valid() && lo < hi <= |result.rows|
    ensures |ColumnsBytes(Columns(result, lo, hi))|
         == |ColumnsBytes(Columns(result, lo, hi - 1))| + CellsSize(result.rows[hi - 1])
  {
    hide ColumnsBytes, Columns, CellsSize, AllFit;
    var row, above, columns := result.rows[hi - 1], Columns(result, lo, hi - 1), Columns(result, lo, hi);
    forall c | 0 <= c < |columns|
      ensures columns[c] == above[c] + [row[c]]
    {
      ColumnsGrow(result, lo, hi, c);
    }
    ColumnsSizeStep(above, row, columns);
  }

  lemma {:induction false} BodySize(result: PgResult, lo: nat, hi: nat)
    requires result.Valid() && lo <= hi <= |result.rows|
    ensures |ColumnsBytes(Columns(result, lo, hi))| == RowsSize(result.rows[lo..hi])
    decreases hi
  {
    hide AllFit, ColumnsBytes, CellsSize;
    if lo == hi {
      EmptyColumns(Columns(result, lo, hi));
    } else {
      hide Columns, RowsSize;
      BodySize(result, lo, hi - 1);
      BodyStep(result, lo, hi);
      RowsSizeStep(result.rows, lo, hi);
    }
  }

  lemma RowsSizeStep(rows: seq<seq<Cell>>, lo: nat, hi: nat)
    requires lo < hi <= |rows|
    ensures RowsSize(rows[lo..hi]) == RowsSize(rows[lo..hi - 1]) + CellsSize(rows[hi - 1])
  {
    assert rows[lo..hi][..hi - 1 - lo] == rows[lo..hi - 1];
  }

  /** The encoding is 16 bytes plus, over the slice's cells, 1 for a NULL and 5 plus its length otherwise. */
  lemma BatchSize(result: PgResult, lo: nat, hi: nat)
    requires result.Valid() && lo <= hi <= |result.rows|
    ensures |BatchBytes(result, lo, hi)| == HEADER + RowsSize(result.rows[lo..hi])
  {
    BodySize(result, lo, hi);
    hide ColumnsBytes, Columns, RowsSize;
  }

  // ----- Truncation and trailing bytes -----

  lemma CellPrefix(buf: seq<byte>, offset: nat, k: nat)
    requires k <= |buf| && SkipCell(buf, offset).Ok?
    ensures k < SkipCell(buf, offset).value ==> SkipCell(buf[..k], offset).Err?
    ensures k >= SkipCell(buf, offset).value ==>
              SkipCell(buf[..k], offset) == SkipCell(buf, offset) && ReadCell(buf[..k], offset) == ReadCell(buf, offset)
  {
    if k >= offset + 5 {
      ReadPrefix(buf, k, offset + 1, 4);
    }
    if k >= SkipCell(buf, offset).value && buf[offset] == 0 {
      assert buf[..k][offset + 5..SkipCell(buf, offset).value] == buf[offset + 5..SkipCell(buf, offset).value];
    }
  }

  lemma {:induction false} CellsPrefix(buf: seq<byte>, offset: nat, n: nat, k: nat)
    requires offset <= k <= |buf| && SkipCells(buf, offset, n).Ok?
    ensures k < SkipCells(buf, offset, n).value ==> SkipCells(buf[..k], offset, n).Err?
    ensures k >= SkipCells(buf, offset, n).value ==>
              && SkipCells(buf[..k], offset, n) == SkipCells(buf, offset, n)
              && forall i :: 0 <= i < n ==> CellOfColumn(buf[..k], offset, i) == CellOfColumn(buf, offset, i)
  {
    if n > 0 {
      hide SkipCell, ReadCell;
      CellsPrefix(buf, offset, n - 1, k);
      CellPrefix(buf, SkipCells(buf, offset, n - 1).value, k);
    }
  }

  lemma {:induction false} ColumnsPrefix(buf: seq<byte>, m: nat, n: nat, k: nat)
    requires HEADER <= k <= |buf| && SkipColumns(buf, HEADER, m, n).Ok?
    ensures k < SkipColumns(buf, HEADER, m, n).value ==> SkipColumns(buf[..k], HEADER, m, n).Err?
    ensures k >= SkipColumns(buf, HEADER, m, n).value ==>
              && SkipColumns(buf[..k], HEADER, m, n) == SkipColumns(buf, HEADER, m, n)
              && forall c, r :: 0 <= c < m && 0 <= r < n ==> CellOf(buf[..k], n, r, c) == CellOf(buf, n, r, c)
  {
    if m > 0 {
      hide SkipCells, CellOfColumn;
      ColumnsPrefix(buf, m - 1, n, k);
      var at := SkipColumns(buf, HEADER, m - 1, n).value;
      if k >= at {
        CellsPrefix(buf, at, n, k);
      }
    }
  }

  /** Bytes of an accepted, non-empty payload that the decoder consumes. */
  function Consumed(payload: seq<byte>, fields: seq<Field>): nat
    requires |payload| >= HEADER && SkipColumns(payload, HEADER, |fields|, ReadU32(payload, 8)).Ok?
  {
    SkipColumns(payload, HEADER, |fields|, ReadU32(payload, 8)).value
  }

  /** For every accepted payload, whoever produced it: a non-empty prefix is accepted exactly when it
      keeps all consumed bytes, and then it decodes to the same rows. */
  lemma PrefixAcceptedIffComplete<V>(payload: seq<byte>, k: nat, fields: seq<Field>, decode: (Field, seq<byte>) -> V)
    requires 0 < k <= |payload| && DecodeBatch(payload, fields, decode).Ok?
    ensures DecodeBatch(payload[..k], fields, decode).Ok? <==> k >= Consumed(payload, fields)
    ensures k >= Consumed(payload, fields)
            ==> DecodeBatch(payload[..k], fields, decode) == DecodeBatch(payload, fields, decode)
  {
    if k >= HEADER {
      ReadPrefix(payload, k, 0, 4);
      ReadPrefix(payload, k, 4, 4);
      ReadPrefix(payload, k, 8, 4);
      ReadPrefix(payload, k, 12, 4);
      var numRows := ReadU32(payload, 8);
      ColumnsPrefix(payload, |fields|, numRows, k);
      if k >= Consumed(payload, fields) {
        hide ReadU32, SkipColumns, CellOf, RowOf;
        forall r | 0 <= r < numRows
          ensures RowCells(payload[..k], |fields|, numRows, r) == RowCells(payload, |fields|, numRows, r)
        {
        }
        assert DecodedRows(payload[..k], fields, numRows, decode) == DecodedRows(payload, fields, numRows, decode);
      }
    }
  }

  /** Truncating an encoding anywhere but to nothing is detected. */
  lemma TruncationDetected<V>(result: PgResult, lo: nat, hi: nat, k: nat, decode: (Field, seq<byte>) -> V)
    requires result.Valid() && lo <= hi <= |result.rows|
    requires 0 < k < |BatchBytes(result, lo, hi)|
    ensures DecodeBatch(BatchBytes(result, lo, hi)[..k], result.fields, decode).Err?
  {
    var image := BatchBytes(result, lo, hi);
    BatchEnds(result, lo, hi, []);
    assert image + [] == image;
    PrefixAcceptedIffComplete(image, k, result.fields, decode);
  }
}
