/** The statement building shared by the two upload handlers of index.js
    (`/api/upload/classes` and `/api/upload/students`): the parsed sheet is cut
    into slices of 100 rows, every row is projected onto the table's column
    tuple, and each slice becomes one multi-row `INSERT` whose placeholder
    groups are numbered positionally and whose parameters are the tuples
    flattened. */
module BatchInsert {
  import opened Text
  import opened Sql
  import opened Wrappers

  /** A row of the first sheet, keyed by column header, as the spreadsheet
      parser hands it over. */
  type Row = map<string, Value>

  /** The two tables an upload can fill. */
  datatype Table = ClassTable | StudentTable

  /** Rows per `INSERT` statement. */
  const BatchSize: nat := 100

  function TableName(t: Table): string
  {
    match t
    case ClassTable => "class"
    case StudentTable => "student"
  }

  /** The keys read from each row, in the order of the column list of the
      `INSERT`. */
  function Columns(t: Table): seq<string>
  {
    match t
    case ClassTable => ["id", "name", "grade_id", "year_id", "course_id"]
    case StudentTable => ["ra", "name", "digit", "class_id"]
  }

  /** `row[key]`: a header the row lacks reads as `undefined`, which the
      driver sends as SQL NULL. */
  function Lookup(row: Row, key: string): Value
  {
    if key in row then row[key] else Null
  }

  /** The tuple `[row.c1, ..., row.cn]` built for one row. */
  function Project(row: Row, cols: seq<string>): seq<Value>
  {
    seq(|cols|, m requires 0 <= m < |cols| => Lookup(row, cols[m]))
  }

  /** `batch.map(row => [...])`: one tuple per row, in order. */
  function Tuples(t: Table, rows: seq<Row>): seq<seq<Value>>
  {
    seq(|rows|, j requires 0 <= j < |rows| => Project(rows[j], Columns(t)))
  }

  function Min(a: int, b: int): int
  {
    if a <= b then a else b
  }

  /** `s.slice(i, j)` for non-negative bounds: both are clamped to the
      length, and a reversed range is empty. */
  function Slice<T>(s: seq<T>, i: nat, j: nat): seq<T>
  {
    var a, b := Min(i, |s|), Min(j, |s|);
    if b <= a then [] else s[a..b]
  }

  /** The slices `rows.slice(i, i + size)` for i = 0, size, 2 * size, ...
      while i < |rows|, the ones the upload loop visits. */
  function Batches<T>(rows: seq<T>, size: nat): seq<seq<T>>
    requires size > 0
    decreases |rows|
  {
    if |rows| == 0 then [] else [Slice(rows, 0, size)] + Batches(rows[Min(size, |rows|)..], size)
  }

  /** The batches, concatenated, are the rows in their original order. */
  lemma {:induction false} BatchesPartition<T>(rows: seq<T>, size: nat)
    requires size > 0
    ensures Flatten(Batches(rows, size)) == rows
  {
    if |rows| > 0 {
      var k := Min(size, |rows|);
      BatchesPartition(rows[k..], size);
      assert rows == rows[..k] + rows[k..];
    }
  }

  /** Every batch is non-empty and holds at most `size` rows; all but the
      last hold exactly `size`. */
  lemma {:induction false} BatchesSized<T>(rows: seq<T>, size: nat)
    requires size > 0
    ensures var bs := Batches(rows, size);
      forall q :: 0 <= q < |bs| ==>
        0 < |bs[q]| <= size && (q < |bs| - 1 ==> |bs[q]| == size)
  {
    if |rows| > 0 {
      var k := Min(size, |rows|);
      BatchesSized(rows[k..], size);
      var bs := Batches(rows, size);
      assert bs == [Slice(rows, 0, size)] + Batches(rows[k..], size);
      forall q | 0 <= q < |bs|
        ensures 0 < |bs[q]| <= size && (q < |bs| - 1 ==> |bs[q]| == size)
      {
        if q > 0 {
          assert bs[q] == Batches(rows[k..], size)[q - 1];
        } else if |bs| > 1 {
          assert |rows[k..]| > 0;
        }
      }
    }
  }

  /** There are ceil(|rows| / size) batches: none for no rows, and otherwise
      the fewest whose combined capacity holds every row. */
  lemma {:induction false} BatchesCount<T>(rows: seq<T>, size: nat)
    requires size > 0
    ensures var n := |Batches(rows, size)|;
      (|rows| == 0 <==> n == 0) && (n > 0 ==> (n - 1) * size < |rows| <= n * size)
  {
    if |rows| > 0 {
      var k := Min(size, |rows|);
      BatchesCount(rows[k..], size);
      var n' := |Batches(rows[k..], size)|;
      assert (n' + 1) * size == n' * size + size;
    }
  }

  /** What remains of the batches once the loop index is at `i`: the slice at
      `i` and then the batches of what follows it. */
  lemma BatchesFrom<T>(rows: seq<T>, i: nat, size: nat)
    requires size > 0 && i < |rows|
    ensures Batches(rows[i..], size)
         == [Slice(rows, i, i + size)] + Batches(rows[Min(i + size, |rows|)..], size)
  {
    var rest := rows[i..];
    assert Slice(rest, 0, size) == Slice(rows, i, i + size);
    assert rest[Min(size, |rest|)..] == rows[Min(i + size, |rows|)..];
  }

  /** The placeholder numbers of a batch of `k` rows of width `c`: group `j`
      holds `j * c + 1` to `j * c + c`. */
  function Placeholders(k: nat, c: nat): seq<seq<nat>>
  {
    seq(k, j requires 0 <= j < k => seq(c, m requires 0 <= m < c => j * c + m + 1))
  }

  /** Entry `p` of the flattened placeholder numbers is `p + 1`. */
  lemma PlaceholderAt(k: nat, c: nat, p: nat)
    requires p < k * c
    ensures |Flatten(Placeholders(k, c))| == k * c
    ensures Flatten(Placeholders(k, c))[p] == p + 1
  {
    var j, m := p / c, p % c;
    assert j * c + m == p;
    assert j < k;
    FlattenAt(Placeholders(k, c), c, j, m);
  }

  /** Read in order, the placeholder numbers are exactly 1, 2, ..., k * c:
      no gap and no repeat. */
  lemma PlaceholderNumbering(k: nat, c: nat)
    ensures Flatten(Placeholders(k, c)) == Ordinals(k * c)
  {
    FlattenLength(Placeholders(k, c), c);
    forall p | 0 <= p < k * c
      ensures Flatten(Placeholders(k, c))[p] == p + 1
    {
      PlaceholderAt(k, c, p);
    }
  }

  /** `"($a, $b, ...)"` for one group. */
  function RenderGroup(g: seq<nat>): string
  {
    "(" + Join(seq(|g|, i requires 0 <= i < |g| => ParamRef(g[i])), ", ") + ")"
  }

  /** The `placeholders` string: the rendered groups joined by `", "`. */
  function PlaceholderText(gs: seq<seq<nat>>): string
  {
    Join(seq(|gs|, i requires 0 <= i < |gs| => RenderGroup(gs[i])), ", ")
  }

  /** `INSERT INTO <table> (<columns>) VALUES <placeholders>`. */
  function InsertSql(t: Table, placeholders: string): string
  {
    "INSERT INTO " + TableName(t) + " (" + Join(Columns(t), ", ") + ") VALUES " + placeholders
  }

  /** The statement text sent for one batch. */
  function BatchSql(t: Table, batch: seq<Row>): string
  {
    InsertSql(t, PlaceholderText(Placeholders(|batch|, |Columns(t)|)))
  }

  /** `flatValues`, the parameter array sent for one batch. */
  function BatchParams(t: Table, batch: seq<Row>): seq<Value>
  {
    Flatten(Tuples(t, batch))
  }

  lemma GroupScans(g: seq<nat>)
    ensures ScansAs(RenderGroup(g), g)
  {
    var refs := seq(|g|, i requires 0 <= i < |g| => ParamRef(g[i]));
    var es := seq(|g|, i requires 0 <= i < |g| => [g[i]]);
    forall i | 0 <= i < |g|
      ensures ScansAs(refs[i], es[i])
    {
      forall rest: string | Delimited(rest)
        ensures Params(refs[i] + rest) == es[i] + Params(rest)
      {
        ParamRefScans(g[i], rest);
      }
    }
    JoinScans(refs, es, ", ");
    FlattenSingletons(g);
    var list := Join(refs, ", ");
    forall rest: string | Delimited(rest)
      ensures Params(RenderGroup(g) + rest) == g + Params(rest)
    {
      ParenthesizedAt(list, g, rest);
    }
  }

  lemma ParenthesizedAt(list: string, e: seq<nat>, rest: string)
    requires ScansAs(list, e) && Delimited(rest)
    ensures Params("(" + list + ")" + rest) == e + Params(rest)
  {
    Regroup("(" + list, ")", rest);
    Regroup("(", list, ")" + rest);
    ParamsOfPlain("(", list + (")" + rest));
    assert Params(list + (")" + rest)) == e + Params(")" + rest);
    ParamsOfPlain(")", rest);
  }

  /** The references in the placeholder text are the group numbers in order. */
  lemma PlaceholderTextScans(gs: seq<seq<nat>>)
    ensures Params(PlaceholderText(gs)) == Flatten(gs)
  {
    var parts := seq(|gs|, i requires 0 <= i < |gs| => RenderGroup(gs[i]));
    forall i | 0 <= i < |gs|
      ensures ScansAs(parts[i], gs[i])
    {
      GroupScans(gs[i]);
    }
    JoinScans(parts, gs, ", ");
    var text := PlaceholderText(gs);
    assert text + "" == text;
    assert Params("") == [];
  }

  lemma ColumnsAvoidDollar(t: Table)
    ensures Avoids("INSERT INTO " + TableName(t) + " (" + Join(Columns(t), ", ") + ") VALUES ", '$')
  {
    var cols := Columns(t);
    forall i | 0 <= i < |cols|
      ensures Avoids(cols[i], '$')
    {
    }
    JoinAvoids(cols, ", ", '$');
    AvoidsAppend("INSERT INTO ", TableName(t), '$');
    AvoidsAppend("INSERT INTO " + TableName(t), " (", '$');
    AvoidsAppend("INSERT INTO " + TableName(t) + " (", Join(cols, ", "), '$');
    AvoidsAppend("INSERT INTO " + TableName(t) + " (" + Join(cols, ", "), ") VALUES ", '$');
  }

  /** The references in a batch's statement are exactly $1 to $(k * c), in
      order. */
  lemma BatchSqlParams(t: Table, batch: seq<Row>)
    ensures var c := |Columns(t)|;
      Params(BatchSql(t, batch)) == Ordinals(|batch| * c)
  {
    var c := |Columns(t)|;
    var gs := Placeholders(|batch|, c);
    var prefix := "INSERT INTO " + TableName(t) + " (" + Join(Columns(t), ", ") + ") VALUES ";
    ColumnsAvoidDollar(t);
    assert BatchSql(t, batch) == prefix + PlaceholderText(gs);
    ParamsOfPlain(prefix, PlaceholderText(gs));
    PlaceholderTextScans(gs);
    PlaceholderNumbering(|batch|, c);
  }

  /** Placeholder `$(j * c + m + 1)` of a batch's statement sits in group
      `j`, and the parameter it names is column `m` of row `j`. */
  lemma BatchParamAt(t: Table, batch: seq<Row>, j: nat, m: nat)
    requires j < |batch| && m < |Columns(t)|
    ensures var c := |Columns(t)|;
      && Placeholders(|batch|, c)[j][m] == j * c + m + 1
      && |BatchParams(t, batch)| == |batch| * c
      && BatchParams(t, batch)[j * c + m] == Lookup(batch[j], Columns(t)[m])
  {
    FlattenAt(Tuples(t, batch), |Columns(t)|, j, m);
  }

  /** The store, binding a batch's statement to its parameters, reads back
      exactly the batch's tuples: every placeholder lines up with its value. */
  lemma BatchBinds(t: Table, batch: seq<Row>)
    ensures BoundRows(BatchSql(t, batch), BatchParams(t, batch), |Columns(t)|)
         == Some(Tuples(t, batch))
  {
    var c := |Columns(t)|;
    BatchSqlParams(t, batch);
    FlattenLength(Tuples(t, batch), c);
    ResolveInOrder(Params(BatchSql(t, batch)), BatchParams(t, batch));
    RowsOfFlatten(Tuples(t, batch), c);
  }
}
