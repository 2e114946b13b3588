/**
 * _create_data_table: a reportlab table built from a frame's header and
 * rows, whose cells are then overwritten one by one with paragraphs of
 * their text so that long values wrap.
 */
module DataTables {
  import opened Text
  import opened Tickets

  /** A value of a frame cell, as read from the database. */
  datatype Cell =
    | Str(text: string)
    | Bytes(decoded: string)  // a byte string whose UTF-8 decoding is `decoded`
    | Int(number: int)
    | Decimal(hundredths: int) // a DECIMAL(_, 2), such as ROUND(x, 2)
    | Null

  function IntText(n: int): (s: string)
    ensures |s| >= 1
    ensures (s[0] == '-') <==> n < 0
  {
    if n < 0 then "-" + NatToString(-n) else NatToString(n)
  }

  /** str(cell). A byte string prints as its literal b'...'. */
  function StrOf(c: Cell): string
  {
    match c
    case Str(s) => s
    case Bytes(t) => "b'" + t + "'"
    case Int(n) => IntText(n)
    case Decimal(h) => Fixed2(h)
    case Null => "None"
  }

  /** The six tables of the report whose cells are rewritten as paragraphs. */
  datatype TableKind = TeamTable | EngineerTable | UnresolvedTable | OverdueTable | InfraKpiTable | AppKpiTable

  /**
   * Whether a renderer decodes byte strings in a table: the Latest one
   * does in every table (all go through _create_data_table); the Dated
   * one only in its two KPI tables, and prints the other four with str().
   */
  function Decodes(fork: Fork, kind: TableKind): bool
  {
    fork == Latest || kind == InfraKpiTable || kind == AppKpiTable
  }

  /**
   * The text a table shows for a cell: where the table decodes, a byte
   * string shows its decoded text; anything else prints with str().
   */
  function CellText(decode: bool, c: Cell): (s: string)
    ensures !c.Bytes? ==> s == StrOf(c)
    ensures decode && c.Bytes? ==> s == c.decoded
    ensures !decode ==> s == StrOf(c)
  {
    if decode && c.Bytes? then c.decoded else StrOf(c)
  }

  /**
   * A byte string reads like the text it encodes exactly in the tables
   * whose renderer decodes: every table of the Latest version, and the two
   * KPI tables of the Dated one.
   */
  lemma BytesShownDecoded(fork: Fork, kind: TableKind, t: string)
    ensures CellText(Decodes(fork, kind), Bytes(t)) == CellText(Decodes(fork, kind), Str(t))
        <==> fork == Latest || kind == InfraKpiTable || kind == AppKpiTable
  {
    if !Decodes(fork, kind) {
      assert |CellText(false, Bytes(t))| == |t| + 3;
    }
  }

  /** Numbers print in full: an integer cell shows the digits of its value. */
  lemma IntCellDigits(decode: bool, n: nat)
    ensures AllDigits(CellText(decode, Int(n))) && DigitsValue(CellText(decode, Int(n))) == n
  {
  }

  /** A cell of table._cellvalues: the raw value Table(data) stored, or the paragraph that replaced it. */
  datatype Value = Raw(cell: Cell) | Para(text: string)

  /** A raw value is drawn as str(value); a paragraph as its text. */
  function TextOf(v: Value): string
  {
    match v
    case Raw(c) => StrOf(c)
    case Para(t) => t
  }

  predicate Rectangular(data: seq<seq<Cell>>)
  {
    |data| > 0 && forall i :: 0 <= i < |data| ==> |data[i]| == |data[0]|
  }

  /** The texts of row i of a grid. */
  function RowTexts(g: array2<Value>, i: nat): (r: seq<string>)
    requires i < g.Length0
    reads g
    ensures |r| == g.Length1
  {
    seq(g.Length1, j requires 0 <= j < g.Length1 reads g => TextOf(g[i, j]))
  }

  /** A reportlab Table: its data grid, table._cellvalues. */
  class DataTable {
    const rows: nat
    const cols: nat
    var cells: array2<Value>

    ghost predicate Valid()
      reads this
    {
      cells.Length0 == rows && cells.Length1 == cols
    }

    /** Table(data): the grid holds the values of `data` as they are. */
    constructor (data: seq<seq<Cell>>)
      requires Rectangular(data)
      ensures Valid() && fresh(cells)
      ensures rows == |data| && cols == |data[0]|
      ensures forall i, j :: 0 <= i < rows && 0 <= j < cols ==> cells[i, j] == Raw(data[i][j])
    {
      rows, cols := |data|, |data[0]|;
      cells := new Value[|data|, |data[0]|]((i, j) requires 0 <= i < |data| && 0 <= j < |data[0]| => Raw(data[i][j]));
    }

    /** The text of every cell of the grid, as the table draws it. */
    function Shown(): (r: seq<seq<string>>)
      reads this, cells
      requires Valid()
      ensures |r| == rows && forall i :: 0 <= i < rows ==> |r[i]| == cols
    {
      seq(cells.Length0, i requires 0 <= i < cells.Length0 reads this, cells => RowTexts(cells, i))
    }

    /**
     * The nested loops over enumerate(data): every cell (i, j) is
     * replaced by the paragraph of data[i][j]'s text.
     */
    method WrapCells(decode: bool, data: seq<seq<Cell>>)
      requires Valid() && |data| == rows
      requires forall i :: 0 <= i < |data| ==> |data[i]| == cols
      modifies cells
      ensures forall i, j :: 0 <= i < rows && 0 <= j < cols ==> cells[i, j] == Para(CellText(decode, data[i][j]))
    {
      var i := 0;
      while i < rows
        invariant 0 <= i <= rows
        invariant forall a, b :: 0 <= a < i && 0 <= b < cols ==> cells[a, b] == Para(CellText(decode, data[a][b]))
      {
        WrapRow(decode, i, data[i]);
        i := i + 1;
      }
    }

    /** The inner loop: row i, cell by cell; the other rows keep their values. */
    method WrapRow(decode: bool, i: nat, row: seq<Cell>)
      requires Valid() && i < rows && |row| == cols
      modifies cells
      ensures forall j :: 0 <= j < cols ==> cells[i, j] == Para(CellText(decode, row[j]))
      ensures forall a, b :: 0 <= a < rows && a != i && 0 <= b < cols ==> cells[a, b] == old(cells[a, b])
    {
      var j := 0;
      while j < cols
        invariant 0 <= j <= cols
        invariant forall b :: 0 <= b < j ==> cells[i, b] == Para(CellText(decode, row[b]))
        invariant forall a, b :: 0 <= a < rows && a != i && 0 <= b < cols ==> cells[a, b] == old(cells[a, b])
      {
        cells[i, j] := Para(CellText(decode, row[j]));
        j := j + 1;
      }
    }
  }

  /**
   * _create_data_table(data, normal_style): the table of a frame's header
   * and rows, each cell showing its text.
   */
  method CreateDataTable(decode: bool, data: seq<seq<Cell>>) returns (t: DataTable)
    requires Rectangular(data)
    ensures fresh(t) && fresh(t.cells) && t.Valid()
    ensures t.rows == |data| && t.cols == |data[0]|
    ensures forall i, j :: 0 <= i < t.rows && 0 <= j < t.cols ==> t.cells[i, j] == Para(CellText(decode, data[i][j]))
  {
    t := new DataTable(data);
    t.WrapCells(decode, data);
  }

  /** What the table shows, as a function of the data: every cell's text, in place. */
  function TableTexts(decode: bool, data: seq<seq<Cell>>): (r: seq<seq<string>>)
    requires Rectangular(data)
    ensures |r| == |data|
    ensures forall i :: 0 <= i < |data| ==> |r[i]| == |data[i]|
  {
    seq(|data|, i requires 0 <= i < |data| => seq(|data[i]|, j requires 0 <= j < |data[i]| => CellText(decode, data[i][j])))
  }

  /** The table built by CreateDataTable shows exactly TableTexts. */
  lemma ShownTexts(decode: bool, data: seq<seq<Cell>>, t: DataTable)
    requires Rectangular(data) && t.Valid() && t.rows == |data| && t.cols == |data[0]|
    requires forall i, j :: 0 <= i < t.rows && 0 <= j < t.cols ==> t.cells[i, j] == Para(CellText(decode, data[i][j]))
    ensures t.Shown() == TableTexts(decode, data)
  {
    var r, e := t.Shown(), TableTexts(decode, data);
    forall i | 0 <= i < |data| ensures r[i] == e[i] {
      assert |data[i]| == t.cols;
    }
  }

  /** The texts of the table _create_data_table builds for `data`. */
  method DataTableTexts(decode: bool, data: seq<seq<Cell>>) returns (texts: seq<seq<string>>)
    requires Rectangular(data)
    ensures texts == TableTexts(decode, data)
  {
    var t := CreateDataTable(decode, data);
    ShownTexts(decode, data, t);
    texts := t.Shown();
  }
}
