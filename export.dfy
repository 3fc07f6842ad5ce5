/**
 * `GET /foods/export` (`export_foods_csv`): the same food filters as the
 * listing, an allow-listed sort column, and a CSV document written into a
 * text buffer: a byte-order mark, a fixed header row, then one row per
 * result row.
 */
module Export {
  import opened Wrappers
  import opened PyStr
  import opened SqlText
  import opened Listing

  // ------------------------------------------------------------------ query

  /** The export's fixed query text, up to `WHERE 1=1` (app.py:386). */
  function ExportHead(): (s: string)
    ensures NoPercent(s)
  {
    "SELECT f.*, s.store_name FROM foods f " + "JOIN stores s ON " + "f.store_id = s.store_id WHERE 1=1"
  }

  /** The only `sort_by` values the export interpolates into its SQL text. */
  const ExportSortColumns := ["food_name", "price", "calories"]

  /** The column the export orders by; `FoodIdColumn` for every value off the allow-list. */
  datatype ExportColumn = FoodNameColumn | PriceColumn | CaloriesColumn | FoodIdColumn

  function ColumnName(c: ExportColumn): (name: string)
    ensures NoPercent(name)
  {
    match c
    case FoodNameColumn => "food_name"
    case PriceColumn => "price"
    case CaloriesColumn => "calories"
    case FoodIdColumn => "food_id"
  }

  /** The allow-list check on `sort_by`: an allowed value names its own column, anything else falls back to `food_id`. */
  function ExportColumnOf(sortBy: string): (c: ExportColumn)
    ensures c == FoodIdColumn <==> sortBy !in ExportSortColumns
    ensures c != FoodIdColumn ==> ColumnName(c) == sortBy
  {
    if sortBy == "food_name" then FoodNameColumn
    else if sortBy == "price" then PriceColumn
    else if sortBy == "calories" then CaloriesColumn
    else FoodIdColumn
  }

  /** The arguments of `GET /foods/export`: a missing `sort_by` is `'food_id'`, which the allow-list turns away, so the export orders by `food_id`. */
  function ExportQueryOf(args: map<string, string>): (q: FoodQuery)
    ensures "sort_by" !in args ==> q.sortBy == "food_id" && ExportColumnOf(q.sortBy) == FoodIdColumn
  {
    StripUnpadded("food_id");
    FoodQueryOf(args, "food_id")
  }

  function ExportOrderClause(c: ExportColumn): (clause: string)
    ensures NoPercent(clause)
  {
    " ORDER BY " + ColumnName(c)
  }

  /**
   * The export's SQL text, from fixed fragments alone, given which filters are
   * set and the column to order by. No ORDER BY column other than the four of
   * `ExportColumn` can occur in it.
   */
  function ExportText(f: FoodFilterShape, c: ExportColumn): string
  {
    ExportWhere(f) + ExportOrderClause(c)
  }

  /** The export's text up to its ORDER BY: the fixed head and the conjuncts of the set filters. */
  function ExportWhere(f: FoodFilterShape): string
  {
    ExportHead() + Opt(f.search, FoodNameLike) + Opt(f.store, FoodStoreIs) + Opt(f.minPrice, FoodPriceAtLeast) +
    Opt(f.maxPrice, FoodPriceAtMost)
  }

  /**
   * `export_foods_csv` lines 386-407: the food conjuncts and values as in the
   * listing, no GROUP BY, and `sort_by` itself spliced into the text only once
   * it has passed the allow-list.
   */
  method BuildExportQuery(q: FoodQuery) returns (sql: string, params: Option<seq<string>>)
    ensures sql == ExportText(FoodFilterShapeOf(q), ExportColumnOf(q.sortBy))
    ensures params == Bind(FoodParams(q))
    ensures Placeholders(sql) == Arity(params)
  {
    sql := ExportHead();
    var ps: seq<string> := [];
    sql, ps := AddFilter(sql, ps, q.search, FoodNameLike, Like(q.search));
    sql, ps := AddFilter(sql, ps, q.storeId, FoodStoreIs, q.storeId);
    sql, ps := AddFilter(sql, ps, q.minPrice, FoodPriceAtLeast, q.minPrice);
    sql, ps := AddFilter(sql, ps, q.maxPrice, FoodPriceAtMost, q.maxPrice);
    assert sql == ExportWhere(FoodFilterShapeOf(q));
    assert ps == FoodParams(q);
    if q.sortBy in ExportSortColumns {
      sql := sql + (" ORDER BY " + q.sortBy);
    } else {
      sql := sql + " ORDER BY food_id";
      assert " ORDER BY food_id" == ExportOrderClause(FoodIdColumn);
    }
    params := Bind(ps);
    ExportPlaceholders(FoodFilterShapeOf(q), ExportColumnOf(q.sortBy));
    FoodParamsCount(q);
  }

  lemma ExportPlaceholders(f: FoodFilterShape, c: ExportColumn)
    ensures Placeholders(ExportText(f, c)) == FoodFilterCount(f)
  {
    FoodConjuncts();
    Conjuncts4(ExportHead(), Opt(f.search, FoodNameLike), Opt(f.store, FoodStoreIs), Opt(f.minPrice, FoodPriceAtLeast),
               Opt(f.maxPrice, FoodPriceAtMost), "", ExportOrderClause(c));
    assert ExportWhere(f) + "" == ExportWhere(f);
  }

  // -------------------------------------------------------------------- CSV

  /** A value of a result row as the CSV writer receives it. */
  datatype Cell = Null | Int(n: int) | Numeric(digits: string) | Text(s: string)

  /** The five columns of a result row that the export writes. */
  datatype FoodRow = FoodRow(foodId: Cell, foodName: Cell, storeName: Cell, price: Cell, calories: Cell)

  /** U+FEFF, written first so that spreadsheet programs read the file as UTF-8. */
  const Bom := "\U{FEFF}"

  const Header := [Text("ID"), Text("食物名稱"), Text("餐廳"), Text("價格"), Text("卡路里")]

  /** The cells `writer.writerow` receives for one result row, in column order. */
  function RowCells(r: FoodRow): (cells: seq<Cell>)
    ensures |cells| == |Header|
  {
    [r.foodId, r.foodName, r.storeName, r.price, r.calories]
  }

  /** One write into the export's text buffer: raw text, or a row handed to the CSV writer. */
  datatype Chunk = Raw(text: string) | Record(cells: seq<Cell>)

  /**
   * `export_foods_csv` lines 410-415: the BOM, the header row, then one row per
   * result row, in result order.
   */
  method WriteCsv(rows: seq<FoodRow>) returns (out: seq<Chunk>)
    ensures |out| == |rows| + 2
    ensures out[0] == Raw(Bom) && out[1] == Record(Header)
    ensures forall i | 0 <= i < |rows| :: out[i + 2] == Record(RowCells(rows[i]))
  {
    out := [Raw(Bom)];
    out := out + [Record(Header)];
    for i := 0 to |rows|
      invariant |out| == i + 2
      invariant out[0] == Raw(Bom) && out[1] == Record(Header)
      invariant forall k | 0 <= k < i :: out[k + 2] == Record(RowCells(rows[k]))
    {
      out := out + [Record(RowCells(rows[i]))];
    }
  }

  /**
   * `output.getvalue()`: the buffer's text, with `format` standing for the CSV
   * writer's rendering of one row (quoting, separators, line terminator).
   */
  function Render(format: seq<Cell> -> string, out: seq<Chunk>): string
  {
    if out == [] then ""
    else (match out[0] case Raw(t) => t case Record(cs) => format(cs)) + Render(format, out[1..])
  }

  /** The rendered result rows, in order. */
  function RenderRows(format: seq<Cell> -> string, rows: seq<FoodRow>): string
  {
    if rows == [] then "" else format(RowCells(rows[0])) + RenderRows(format, rows[1..])
  }

  /**
   * Whatever the CSV dialect, the exported text is the BOM, then the rendered
   * header, then the rendered result rows in result order.
   */
  lemma {:induction false} CsvText(format: seq<Cell> -> string, rows: seq<FoodRow>, out: seq<Chunk>)
    requires |out| == |rows| + 2
    requires out[0] == Raw(Bom) && out[1] == Record(Header)
    requires forall i | 0 <= i < |rows| :: out[i + 2] == Record(RowCells(rows[i]))
    ensures Render(format, out) == Bom + format(Header) + RenderRows(format, rows)
  {
    RenderBody(format, rows, out[2..]);
    assert out[1..][1..] == out[2..];
  }

  lemma {:induction false} RenderBody(format: seq<Cell> -> string, rows: seq<FoodRow>, body: seq<Chunk>)
    requires |body| == |rows|
    requires forall i | 0 <= i < |rows| :: body[i] == Record(RowCells(rows[i]))
    ensures Render(format, body) == RenderRows(format, rows)
  {
    if rows != [] {
      RenderBody(format, rows[1..], body[1..]);
    }
  }
}
