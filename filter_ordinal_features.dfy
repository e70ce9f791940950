/** The ordinal-feature filter: it counts the empty cells of every column
    and every row, keeps the identifier and every column whose schema entry
    is ordinal (leaving out the separate ADOS modules), writes a label file
    with a fixed list of label columns, and writes every empty cell as
    "None". */
module FilterOrdinalFeatures {
  import opened Wrappers
  import opened Json
  import opened Strings
  import opened Lists

  type Row = seq<string>

  /** The two output files, each as its rows. */
  datatype Output = Output(labels: seq<Row>, data: seq<Row>)

  // ---------------------------------------------------------------------------
  // Null counts (lines 24-38)
  // ---------------------------------------------------------------------------

  /** Line 32: a missing cell. */
  predicate IsNull(e: string) {
    e == "" || e == "None"
  }

  /** The missing cells among the first `n` cells of a row. */
  function NullsUpTo(row: Row, n: nat): nat
    requires n <= |row|
  {
    if n == 0 then 0 else NullsUpTo(row, n - 1) + (if IsNull(row[n - 1]) then 1 else 0)
  }

  /** Line 35: `row_null_counts` for one row. */
  function RowNulls(row: Row): nat {
    NullsUpTo(row, |row|)
  }

  /** Line 33: `col_null_counts[j]` once the first `n` data rows are
      counted. */
  function ColNulls(data: seq<Row>, j: nat, n: nat): nat
    requires n <= |data|
  {
    if n == 0 then 0
    else ColNulls(data, j, n - 1) + (if j < |data[n - 1]| && IsNull(data[n - 1][j]) then 1 else 0)
  }

  /** Line 33 raises no IndexError for this row: each missing cell lies in a
      column the header has. */
  predicate NullsFit(row: Row, width: nat) {
    forall j :: 0 <= j < |row| && IsNull(row[j]) ==> j < width
  }

  /** The same for the first `n` data rows. */
  predicate AllFit(data: seq<Row>, width: nat, n: nat)
    requires n <= |data|
  {
    forall r :: 0 <= r < n ==> NullsFit(data[r], width)
  }

  /** No column has more missing cells than there are data rows, so the
      fraction at line 37 never exceeds 1 and line 57 keeps every column. */
  lemma {:induction false} ColNullsBound(data: seq<Row>, j: nat, n: nat)
    requires n <= |data|
    ensures ColNulls(data, j, n) <= n
  {
    if n > 0 {
      ColNullsBound(data, j, n - 1);
    }
  }

  lemma {:induction false} NullsUpToBound(row: Row, width: nat, n: nat)
    requires n <= |row| && NullsFit(row, width)
    ensures NullsUpTo(row, n) <= if n <= width then n else width
  {
    if n > 0 {
      NullsUpToBound(row, width, n - 1);
    }
  }

  /** A row whose missing cells all lie under the header has no more of them
      than the header has columns, so the fraction at line 38 never exceeds
      1 and line 81 keeps every row. */
  lemma {:induction false} RowNullsBound(row: Row, width: nat)
    requires NullsFit(row, width)
    ensures RowNulls(row) <= width
  {
    NullsUpToBound(row, width, |row|);
  }

  // ---------------------------------------------------------------------------
  // Schema lookup (lines 58-68)
  // ---------------------------------------------------------------------------

  /** Lines 62-67 for one piece: descend into the item itself, else into
      its `properties`, else keep the item (the "Problem!" branch). The
      membership tests of lines 62 and 64 are Python's `in`, so a string
      or list in their way raises TypeError only when the test succeeds,
      and an item that is not a dict always does. */
  function Descend(item: Value, piece: string): (r: Result<Value>)
    ensures item.Obj? && piece in item.fields ==> r == Ok(item.fields[piece])
    ensures !item.Obj? ==> r == Err("TypeError")
  {
    match item
    case Obj(fields) =>
      if piece in fields then Ok(fields[piece])
      else if "properties" !in fields then Err("KeyError")
      else (
        match fields["properties"]
        case Obj(p) => if piece in p then Ok(p[piece]) else Ok(item)
        case Str(s) => if Contains(s, piece) then Err("TypeError") else Ok(item)
        case Arr(xs) => if Str(piece) in xs then Err("TypeError") else Ok(item)
        case _ => Err("TypeError"))
    case _ => Err("TypeError")
  }

  /** Lines 60-67: walk the pieces of a header from the schema definitions. */
  function Resolve(item: Value, pieces: seq<string>): Result<Value>
    decreases |pieces|
  {
    if |pieces| == 0 then Ok(item)
    else
      var next :- Descend(item, pieces[0]);
      Resolve(next, pieces[1..])
  }

  /** Line 68: `'data-type' in json_item and json_item['data-type'] ==
      'ordinal'`. */
  function IsOrdinal(item: Value): (r: Result<bool>)
    ensures item.Obj? ==> r == Ok("data-type" in item.fields && item.fields["data-type"] == Str("ordinal"))
  {
    match item
    case Obj(fields) => Ok("data-type" in fields && fields["data-type"] == Str("ordinal"))
    case Str(s) => if Contains(s, "data-type") then Err("TypeError") else Ok(false)
    case Arr(xs) => if Str("data-type") in xs then Err("TypeError") else Ok(false)
    case _ => Err("TypeError")
  }

  /** Lines 58-69 for one header: whether its column is kept. */
  function Keep(h: string, schema: Dict): Result<bool> {
    if !Contains(h, ":") then Ok(false)
    else
      var pieces := Split(Strip(h), ":");
      if "definitions" !in schema then Err("KeyError")
      else
        var item :- Resolve(schema["definitions"], pieces);
        var ordinal :- IsOrdinal(item);
        Ok(ordinal && !StartsWith(pieces[0], "ADOS_"))
  }

  /** A header without ':' is never kept; in particular the identifier
      column is never picked a second time. */
  lemma {:induction false} KeepNeedsColon(h: string, schema: Dict)
    requires !Contains(h, ":")
    ensures Keep(h, schema) == Ok(false)
  {
  }

  /** Line 68: a kept column's schema entry is a dict whose data-type is
      ordinal, and its instrument does not start with "ADOS_". */
  lemma {:induction false} KeepMeansOrdinal(h: string, schema: Dict)
    requires Keep(h, schema) == Ok(true)
    ensures Contains(h, ":") && "definitions" in schema
    ensures var pieces := Split(Strip(h), ":");
      var item := Resolve(schema["definitions"], pieces);
      item.Ok? && item.value.Obj? && "data-type" in item.value.fields &&
      item.value.fields["data-type"] == Str("ordinal") && !StartsWith(pieces[0], "ADOS_")
  {
  }

  /** `Keep` for every header, in header order. */
  function Decisions(header: Row, schema: Dict): (d: seq<Result<bool>>)
    ensures |d| == |header|
  {
    seq(|header|, i requires 0 <= i < |header| => Keep(header[i], schema))
  }

  /** Lines 56-69 over the first `n` columns, given each column's `Keep`
      decision: the kept indices after the identifier's, or the exception
      the schema walk raises. */
  function KeepUpTo(keeps: seq<Result<bool>>, colNulls: seq<nat>, total: nat, n: nat): Result<seq<nat>>
    requires n <= |keeps| == |colNulls|
  {
    if n == 0 then Ok([])
    else
      var kept :- KeepUpTo(keeps, colNulls, total, n - 1);
      if colNulls[n - 1] <= total then
        var keep :- keeps[n - 1];
        Ok(if keep then kept + [n - 1] else kept)
      else Ok(kept)
  }

  /** The selection succeeds exactly when every column passing the null
      threshold has a schema walk that raises nothing. */
  lemma {:induction false} KeepUpToOk(keeps: seq<Result<bool>>, colNulls: seq<nat>, total: nat, n: nat)
    requires n <= |keeps| == |colNulls|
    ensures KeepUpTo(keeps, colNulls, total, n).Ok? <==>
      forall i :: 0 <= i < n && colNulls[i] <= total ==> keeps[i].Ok?
  {
    if n > 0 {
      KeepUpToOk(keeps, colNulls, total, n - 1);
    }
  }

  /** A failed selection stays failed with the same exception. */
  lemma {:induction false} KeepUpToErr(keeps: seq<Result<bool>>, colNulls: seq<nat>, total: nat, n: nat, m: nat)
    requires n <= m <= |keeps| == |colNulls| && KeepUpTo(keeps, colNulls, total, n).Err?
    ensures KeepUpTo(keeps, colNulls, total, m) == KeepUpTo(keeps, colNulls, total, n)
    decreases m
  {
    if m > n {
      KeepUpToErr(keeps, colNulls, total, n, m - 1);
    }
  }

  /** Line 69: a column is kept exactly when it passes the null threshold
      and `Keep` holds of its header; the kept columns are in header
      order. */
  lemma {:induction false} KeepUpToMembers(keeps: seq<Result<bool>>, colNulls: seq<nat>, total: nat, n: nat, i: nat)
    requires n <= |keeps| == |colNulls| && KeepUpTo(keeps, colNulls, total, n).Ok?
    ensures i in KeepUpTo(keeps, colNulls, total, n).value <==>
      i < n && colNulls[i] <= total && keeps[i] == Ok(true)
    ensures Increasing(KeepUpTo(keeps, colNulls, total, n).value)
    ensures forall k :: 0 <= k < |KeepUpTo(keeps, colNulls, total, n).value| ==>
      KeepUpTo(keeps, colNulls, total, n).value[k] < n
  {
    if n > 0 {
      KeepUpToMembers(keeps, colNulls, total, n - 1, i);
    }
  }

  // ---------------------------------------------------------------------------
  // Label columns and output rows (lines 45-51, 73-83)
  // ---------------------------------------------------------------------------

  /** Lines 45-51: the label columns, in the order they are written. */
  const LABEL_COLUMNS: seq<string> := [
    "identifier",
    "diagnosis", "ADIR:diagnosis", "ADIR:diagnosis_num_nulls", "ADIR:communication",
    "ADIR:social_interaction", "ADIR:restricted_repetitive_behavior",
    "ADOS:diagnosis", "ADOS:diagnosis_num_nulls", "ADOS:communication",
    "ADOS:social_interaction", "ADOS:restricted_repetitive_behavior",
    "SRS:diagnosis", "SRS:diagnosis_num_nulls", "SRS:social_awareness", "SRS:social_cognition",
    "SRS:social_communication", "SRS:social_motivation", "SRS:autistic_mannerisms",
    "cpea_diagnosis", "cpea_adjusted_diagnosis"]

  /** `[header.index(x) for x in names]`; ValueError when one is missing. */
  function FindAll(header: Row, names: seq<string>): (r: Result<seq<nat>>)
    ensures r.Ok? <==> forall k :: 0 <= k < |names| ==> names[k] in header
    ensures r.Ok? ==> |r.value| == |names| && InRange(header, r.value) && Gather(header, r.value) == names
    decreases |names|
  {
    if |names| == 0 then Ok([])
    else
      match Find(header, names[0])
      case Err(e) => Err(e)
      case Ok(i) =>
        match FindAll(header, names[1..])
        case Err(e) => Err(e)
        case Ok(rest) =>
          assert Gather(header, [i] + rest) == [names[0]] + Gather(header, rest);
          Ok([i] + rest)
  }

  /** Lines 82-83: the cells of `row` at `cols`, an empty cell written as
      "None"; IndexError when the row is too short. */
  function Project(row: Row, cols: seq<nat>): (r: Result<Row>)
    ensures r.Ok? <==> InRange(row, cols)
    ensures r.Ok? ==> |r.value| == |cols|
    ensures r.Ok? ==> forall k :: 0 <= k < |cols| ==> r.value[k] == if row[cols[k]] == "" then "None" else row[cols[k]]
  {
    if InRange(row, cols) then
      Ok(seq(|cols|, k requires 0 <= k < |cols| => if row[cols[k]] == "" then "None" else row[cols[k]]))
    else Err("IndexError")
  }

  /** Lines 80-83 over the first `n` data rows: the label rows and data
      rows written, or the IndexError of a short row. */
  function WriteUpTo(data: seq<Row>, rowNulls: seq<nat>, width: nat, labelCols: seq<nat>, keepCols: seq<nat>, n: nat): Result<(seq<Row>, seq<Row>)>
    requires n <= |data| == |rowNulls|
  {
    if n == 0 then Ok(([], []))
    else
      var written :- WriteUpTo(data, rowNulls, width, labelCols, keepCols, n - 1);
      if rowNulls[n - 1] <= width then
        var labels :- Project(data[n - 1], labelCols);
        var cells :- Project(data[n - 1], keepCols);
        Ok((written.0 + [labels], written.1 + [cells]))
      else Ok(written)
  }

  /** A failed write stays failed with the same exception. */
  lemma {:induction false} WriteUpToErr(data: seq<Row>, rowNulls: seq<nat>, width: nat, labelCols: seq<nat>, keepCols: seq<nat>, n: nat, m: nat)
    requires n <= m <= |data| == |rowNulls| && WriteUpTo(data, rowNulls, width, labelCols, keepCols, n).Err?
    ensures WriteUpTo(data, rowNulls, width, labelCols, keepCols, m) == WriteUpTo(data, rowNulls, width, labelCols, keepCols, n)
    decreases m
  {
    if m > n {
      WriteUpToErr(data, rowNulls, width, labelCols, keepCols, n, m - 1);
    }
  }

  /** When every row passes the null threshold, every data row is written,
      in order, to both files. */
  lemma {:induction false} WriteUpToOk(data: seq<Row>, rowNulls: seq<nat>, width: nat, labelCols: seq<nat>, keepCols: seq<nat>, n: nat)
    requires n <= |data| == |rowNulls|
    requires forall r :: 0 <= r < n ==> rowNulls[r] <= width
    ensures WriteUpTo(data, rowNulls, width, labelCols, keepCols, n).Ok? <==>
      forall r :: 0 <= r < n ==> InRange(data[r], labelCols) && InRange(data[r], keepCols)
  {
    if n > 0 {
      WriteUpToOk(data, rowNulls, width, labelCols, keepCols, n - 1);
    }
  }

  lemma {:induction false} WriteUpToRows(data: seq<Row>, rowNulls: seq<nat>, width: nat, labelCols: seq<nat>, keepCols: seq<nat>, n: nat)
    requires n <= |data| == |rowNulls|
    requires forall r :: 0 <= r < n ==> rowNulls[r] <= width
    requires WriteUpTo(data, rowNulls, width, labelCols, keepCols, n).Ok?
    ensures var w := WriteUpTo(data, rowNulls, width, labelCols, keepCols, n).value;
      |w.0| == n && |w.1| == n &&
      forall r :: 0 <= r < n ==> Ok(w.0[r]) == Project(data[r], labelCols) && Ok(w.1[r]) == Project(data[r], keepCols)
  {
    if n > 0 {
      WriteUpToRows(data, rowNulls, width, labelCols, keepCols, n - 1);
    }
  }

  // ---------------------------------------------------------------------------
  // The script as a specification (lines 18-83)
  // ---------------------------------------------------------------------------

  /** `col_null_counts` and `row_null_counts` as integer counts. */
  function ColumnCounts(data: seq<Row>, width: nat): (c: seq<nat>)
    ensures |c| == width
  {
    seq(width, j requires 0 <= j < width => ColNulls(data, j, |data|))
  }

  function RowCounts(data: seq<Row>): (c: seq<nat>)
    ensures |c| == |data|
  {
    seq(|data|, r requires 0 <= r < |data| => RowNulls(data[r]))
  }

  /** Lines 56-69: the columns kept after the identifier's, each an index
      into the header, in header order. */
  function KeptColumns(header: Row, data: seq<Row>, schema: Dict): (r: Result<seq<nat>>)
    ensures r.Ok? ==> Increasing(r.value) && forall k :: 0 <= k < |r.value| ==> r.value[k] < |header|
  {
    var keeps, colNulls := Decisions(header, schema), ColumnCounts(data, |header|);
    assert |keeps| == |colNulls| == |header|;
    var kept :- KeepUpTo(keeps, colNulls, |data|, |header|);
    KeepUpToMembers(keeps, colNulls, |data|, |header|, 0);
    Ok(kept)
  }

  /** The script on the CSV file, as its rows, and the phenotype schema,
      with the label columns `names`. The fractions of lines 37-38 are
      compared as counts: `x / total <= 1` is `x <= total` once `total` is
      not zero. */
  function FilterOrdinal(rows: seq<Row>, schema: Dict, names: seq<string>): Result<Output> {
    if |rows| == 0 then Err("StopIteration")
    else
      var header, data := rows[0], rows[1..];
      if !AllFit(data, |header|, |data|) then Err("IndexError")
      else if (|header| > 0 && |data| == 0) || (|data| > 0 && |header| == 0) then Err("ZeroDivisionError")
      else
        var labelCols :- FindAll(header, names);
        var id :- Find(header, "identifier");
        var kept :- KeptColumns(header, data, schema);
        var keepCols := [id] + kept;
        var written :- WriteUpTo(data, RowCounts(data), |header|, labelCols, keepCols, |data|);
        Ok(Output([Gather(header, labelCols)] + written.0, [Gather(header, keepCols)] + written.1))
  }

  /** A successful run: the label header is `names`, the data header is the
      identifier then the kept columns, and the rows follow as `WriteUpTo`
      wrote them. */
  lemma {:induction false} FilterShape(rows: seq<Row>, schema: Dict, names: seq<string>)
    requires FilterOrdinal(rows, schema, names).Ok?
    ensures |rows| > 0
    ensures var header, data := rows[0], rows[1..];
      AllFit(data, |header|, |data|) &&
      FindAll(header, names).Ok? && Find(header, "identifier").Ok? &&
      KeptColumns(header, data, schema).Ok? &&
      var keepCols := [Find(header, "identifier").value] + KeptColumns(header, data, schema).value;
      InRange(header, keepCols) &&
      var w := WriteUpTo(data, RowCounts(data), |header|, FindAll(header, names).value, keepCols, |data|);
      w.Ok? &&
      FilterOrdinal(rows, schema, names).value ==
        Output([names] + w.value.0, [Gather(header, keepCols)] + w.value.1)
  {
  }

  /** Lines 53-69: the data header starts with "identifier", and a column
      comes after it exactly when it passes the null threshold (which every
      column does) and `Keep` accepts its header. */
  lemma {:induction false} KeptColumnsMembers(header: Row, data: seq<Row>, schema: Dict, i: nat)
    requires KeptColumns(header, data, schema).Ok?
    ensures i in KeptColumns(header, data, schema).value <==>
      i < |header| && Keep(header[i], schema) == Ok(true)
  {
    var keeps, colNulls := Decisions(header, schema), ColumnCounts(data, |header|);
    ColumnCountsBound(data, |header|);
    assert |keeps| == |colNulls|;
    KeptBelowThreshold(keeps, colNulls, |data|, i);
  }

  /** No column count exceeds the number of data rows. */
  lemma {:induction false} ColumnCountsBound(data: seq<Row>, width: nat)
    ensures forall j :: 0 <= j < width ==> ColumnCounts(data, width)[j] <= |data|
  {
    forall j | 0 <= j < width
      ensures ColumnCounts(data, width)[j] <= |data|
    {
      ColNullsBound(data, j, |data|);
    }
  }

  lemma {:induction false} KeptBelowThreshold(keeps: seq<Result<bool>>, colNulls: seq<nat>, total: nat, i: nat)
    requires |keeps| == |colNulls| && KeepUpTo(keeps, colNulls, total, |keeps|).Ok?
    requires forall j :: 0 <= j < |colNulls| ==> colNulls[j] <= total
    ensures i in KeepUpTo(keeps, colNulls, total, |keeps|).value <==> i < |keeps| && keeps[i] == Ok(true)
  {
    KeepUpToMembers(keeps, colNulls, total, |keeps|, i);
  }

  /** Lines 80-83: every data row passes the null threshold, so each one is
      written, in order, to both files, its empty cells as "None". */
  lemma {:induction false} FilterRows(data: seq<Row>, width: nat, labelCols: seq<nat>, keepCols: seq<nat>)
    requires AllFit(data, width, |data|)
    requires WriteUpTo(data, RowCounts(data), width, labelCols, keepCols, |data|).Ok?
    ensures var w := WriteUpTo(data, RowCounts(data), width, labelCols, keepCols, |data|).value;
      |w.0| == |data| && |w.1| == |data| &&
      forall r :: 0 <= r < |data| ==> Ok(w.0[r]) == Project(data[r], labelCols) && Ok(w.1[r]) == Project(data[r], keepCols)
  {
    var rowNulls := RowCounts(data);
    forall r | 0 <= r < |data|
      ensures rowNulls[r] <= width
    {
      RowNullsBound(data[r], width);
    }
    WriteUpToRows(data, rowNulls, width, labelCols, keepCols, |data|);
  }

  // ---------------------------------------------------------------------------
  // The script as it runs (lines 18-83)
  // ---------------------------------------------------------------------------

  /** Lines 30-35 for one data row: add its missing cells to
      `col_null_counts` and return their number; `ok` is false for the
      IndexError of a missing cell beyond the header. */
  method CountRow(colNulls: array<nat>, row: Row) returns (ok: bool, c: nat)
    modifies colNulls
    ensures ok == NullsFit(row, colNulls.Length)
    ensures ok ==> c == RowNulls(row)
    ensures ok ==> forall j :: 0 <= j < colNulls.Length ==>
      colNulls[j] == old(colNulls[j]) + if j < |row| && IsNull(row[j]) then 1 else 0
  {
    c := 0;
    for j := 0 to |row|
      invariant c == NullsUpTo(row, j)
      invariant forall k :: 0 <= k < j && IsNull(row[k]) ==> k < colNulls.Length
      invariant forall k :: 0 <= k < colNulls.Length ==>
        colNulls[k] == old(colNulls[k]) + if k < j && IsNull(row[k]) then 1 else 0
    {
      if IsNull(row[j]) {
        if j >= colNulls.Length {
          return false, c;
        }
        colNulls[j] := colNulls[j] + 1;
        c := c + 1;
      }
    }
    ok := true;
  }

  /** Lines 26-35: the null counts of every column and every row of the
      data rows, or the IndexError of a missing cell beyond the header. */
  method CountNulls(data: seq<Row>, width: nat) returns (r: Result<(seq<nat>, seq<nat>)>)
    ensures r == if AllFit(data, width, |data|) then Ok((ColumnCounts(data, width), RowCounts(data))) else Err("IndexError")
  {
    var colNulls := new nat[width](_ => 0);
    var rowNulls: seq<nat> := [];
    for i := 0 to |data|
      invariant AllFit(data, width, i)
      invariant |rowNulls| == i && forall k :: 0 <= k < i ==> rowNulls[k] == RowNulls(data[k])
      invariant forall j :: 0 <= j < width ==> colNulls[j] == ColNulls(data, j, i)
    {
      var ok, c := CountRow(colNulls, data[i]);
      if !ok {
        assert !NullsFit(data[i], width);
        return Err("IndexError");
      }
      rowNulls := rowNulls + [c];
    }
    assert rowNulls == RowCounts(data);
    assert colNulls[..] == ColumnCounts(data, width);
    return Ok((colNulls[..], rowNulls));
  }

  /** Lines 60-67: walk the pieces of a header down from the schema
      definitions. */
  method Lookup(definitions: Value, pieces: seq<string>) returns (r: Result<Value>)
    ensures r == Resolve(definitions, pieces)
  {
    var item := definitions;
    for i := 0 to |pieces|
      invariant Resolve(item, pieces[i..]) == Resolve(definitions, pieces)
    {
      assert pieces[i..][1..] == pieces[i + 1..];
      var next := Descend(item, pieces[i]);
      if next.Err? {
        return Err(next.message);
      }
      item := next.value;
    }
    return Ok(item);
  }

  /** Lines 58-69 for the header of column `i`. */
  method KeepColumn(header: Row, i: nat, schema: Dict) returns (r: Result<bool>)
    requires i < |header|
    ensures r == Decisions(header, schema)[i]
  {
    var h := header[i];
    if !Contains(h, ":") {
      return Ok(false);
    }
    var pieces := Split(Strip(h), ":");
    if "definitions" !in schema {
      return Err("KeyError");
    }
    var item := Lookup(schema["definitions"], pieces);
    if item.Err? {
      return Err(item.message);
    }
    var ordinal := IsOrdinal(item.value);
    if ordinal.Err? {
      return Err(ordinal.message);
    }
    return Ok(ordinal.value && !StartsWith(pieces[0], "ADOS_"));
  }

  /** Lines 57-69 for column `i`: `kept` with column `i` appended when it
      passes the null threshold and `Keep` accepts its header. */
  method SelectColumn(header: Row, schema: Dict, ghost keeps: seq<Result<bool>>, colNulls: seq<nat>, total: nat, i: nat, kept: seq<nat>)
    returns (r: Result<seq<nat>>)
    requires keeps == Decisions(header, schema)
    requires i < |header| == |colNulls|
    requires KeepUpTo(keeps, colNulls, total, i) == Ok(kept)
    ensures r == KeepUpTo(keeps, colNulls, total, i + 1)
  {
    if colNulls[i] <= total {
      var keep := KeepColumn(header, i, schema);
      if keep.Err? {
        return Err(keep.message);
      }
      return Ok(if keep.value then kept + [i] else kept);
    }
    return Ok(kept);
  }

  /** Lines 56-69: the kept columns after the identifier's. */
  method SelectColumns(header: Row, schema: Dict, colNulls: seq<nat>, total: nat) returns (r: Result<seq<nat>>)
    requires |colNulls| == |header|
    ensures r == KeepUpTo(Decisions(header, schema), colNulls, total, |header|)
  {
    ghost var keeps := Decisions(header, schema);
    var kept: seq<nat> := [];
    for i := 0 to |header|
      invariant KeepUpTo(keeps, colNulls, total, i) == Ok(kept)
    {
      var next := SelectColumn(header, schema, keeps, colNulls, total, i, kept);
      if next.Err? {
        KeepUpToErr(keeps, colNulls, total, i + 1, |header|);
        return next;
      }
      kept := next.value;
    }
    return Ok(kept);
  }

  /** Lines 80-83: the label rows and data rows written. */
  method WriteRows(data: seq<Row>, rowNulls: seq<nat>, width: nat, labelCols: seq<nat>, keepCols: seq<nat>)
    returns (r: Result<(seq<Row>, seq<Row>)>)
    requires |data| == |rowNulls|
    ensures r == WriteUpTo(data, rowNulls, width, labelCols, keepCols, |data|)
  {
    var labelRows: seq<Row> := [];
    var dataRows: seq<Row> := [];
    for i := 0 to |data|
      invariant WriteUpTo(data, rowNulls, width, labelCols, keepCols, i) == Ok((labelRows, dataRows))
    {
      if rowNulls[i] <= width {
        var labels := Project(data[i], labelCols);
        if labels.Err? {
          WriteUpToErr(data, rowNulls, width, labelCols, keepCols, i + 1, |data|);
          return Err(labels.message);
        }
        var cells := Project(data[i], keepCols);
        if cells.Err? {
          WriteUpToErr(data, rowNulls, width, labelCols, keepCols, i + 1, |data|);
          return Err(cells.message);
        }
        labelRows := labelRows + [labels.value];
        dataRows := dataRows + [cells.value];
      }
    }
    return Ok((labelRows, dataRows));
  }

  /** Lines 18-83 with the label columns `names`. */
  method FilterOrdinalWith(rows: seq<Row>, schema: Dict, names: seq<string>) returns (r: Result<Output>)
    ensures r == FilterOrdinal(rows, schema, names)
  {
    if |rows| == 0 {
      return Err("StopIteration");
    }
    var header, data := rows[0], rows[1..];
    var counts := CountNulls(data, |header|);
    if counts.Err? {
      return Err(counts.message);
    }
    var colNulls, rowNulls := counts.value.0, counts.value.1;
    if (|header| > 0 && |data| == 0) || (|data| > 0 && |header| == 0) {
      return Err("ZeroDivisionError");
    }
    var labelCols := FindAll(header, names);
    if labelCols.Err? {
      return Err(labelCols.message);
    }
    var id := Find(header, "identifier");
    if id.Err? {
      return Err(id.message);
    }
    var kept := SelectColumns(header, schema, colNulls, |data|);
    assert kept == KeptColumns(header, data, schema);
    if kept.Err? {
      return Err(kept.message);
    }
    var keepCols := [id.value] + kept.value;
    var written := WriteRows(data, rowNulls, |header|, labelCols.value, keepCols);
    if written.Err? {
      return Err(written.message);
    }
    return Ok(Output([Gather(header, labelCols.value)] + written.value.0, [Gather(header, keepCols)] + written.value.1));
  }

  /** Lines 18-83. */
  method FilterOrdinalFeatures(rows: seq<Row>, schema: Dict) returns (r: Result<Output>)
    ensures r == FilterOrdinal(rows, schema, LABEL_COLUMNS)
  {
    r := FilterOrdinalWith(rows, schema, LABEL_COLUMNS);
  }
}
