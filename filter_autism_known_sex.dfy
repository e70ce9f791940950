/** The known-sex filter: the data file and the label file are read in
    step, row i of one with row i of the other, and a pair is kept when its
    gender label is known. Both headers are written first. */
module FilterAutismKnownSex {
  import opened Wrappers
  import opened Lists

  type Row = seq<string>

  /** The two output files, each as its rows. */
  datatype Output = Output(labels: seq<Row>, data: seq<Row>)

  /** Lines 33-39 over the first `n` label rows: the kept label rows and the
      kept data rows, or the exception that stops the loop. Row i first
      advances the data reader (StopIteration once it is exhausted), then
      reads the gender cell (IndexError on a short row). */
  function KeptUpTo(labels: seq<Row>, data: seq<Row>, sex: nat, n: nat): Result<(seq<Row>, seq<Row>)>
    requires n <= |labels|
  {
    if n == 0 then Ok(([], []))
    else
      var kept :- KeptUpTo(labels, data, sex, n - 1);
      if n - 1 >= |data| then Err("StopIteration")
      else if sex >= |labels[n - 1]| then Err("IndexError")
      else if labels[n - 1][sex] != "None" then Ok((kept.0 + [labels[n - 1]], kept.1 + [data[n - 1]]))
      else Ok(kept)
  }

  /** The first `n` label rows all have a gender cell. */
  predicate HasSex(labels: seq<Row>, sex: nat, n: nat)
    requires n <= |labels|
  {
    forall i :: 0 <= i < n ==> sex < |labels[i]|
  }

  /** Indices, among the first `n` label rows, of the rows whose gender is
      known. */
  function Known(labels: seq<Row>, sex: nat, n: nat): (idx: seq<nat>)
    requires n <= |labels| && HasSex(labels, sex, n)
    ensures forall k :: 0 <= k < |idx| ==> idx[k] < n
  {
    if n == 0 then []
    else Known(labels, sex, n - 1) + (if labels[n - 1][sex] != "None" then [n - 1] else [])
  }

  /** Line 37: a row is selected exactly when its gender is not "None";
      the diagnosis cell plays no part. */
  lemma {:induction false} KnownMembers(labels: seq<Row>, sex: nat, n: nat, i: nat)
    requires n <= |labels| && HasSex(labels, sex, n)
    ensures i in Known(labels, sex, n) <==> i < n && labels[i][sex] != "None"
  {
    if n > 0 {
      KnownMembers(labels, sex, n - 1, i);
    }
  }

  /** The selection keeps the input order. */
  lemma {:induction false} KnownIncreasing(labels: seq<Row>, sex: nat, n: nat)
    requires n <= |labels| && HasSex(labels, sex, n)
    ensures Increasing(Known(labels, sex, n))
  {
    if n > 0 {
      KnownIncreasing(labels, sex, n - 1);
    }
  }

  /** The loop fails exactly when the data file has fewer rows than the
      label file or a label row has no gender cell. */
  lemma {:induction false} KeptUpToOk(labels: seq<Row>, data: seq<Row>, sex: nat, n: nat)
    requires n <= |labels|
    ensures KeptUpTo(labels, data, sex, n).Ok? <==> n <= |data| && HasSex(labels, sex, n)
  {
    if n > 0 {
      KeptUpToOk(labels, data, sex, n - 1);
    }
  }

  /** Lines 38-39: the kept label rows and data rows are the rows at the
      same indices, so row i of one output stays paired with row i of the
      other. */
  lemma {:induction false} KeptUpToPairs(labels: seq<Row>, data: seq<Row>, sex: nat, n: nat)
    requires n <= |labels| && n <= |data| && HasSex(labels, sex, n)
    ensures KeptUpTo(labels, data, sex, n) == Ok((Gather(labels, Known(labels, sex, n)), Gather(data, Known(labels, sex, n))))
  {
    if n > 0 {
      KeptUpToPairs(labels, data, sex, n - 1);
      var idx := Known(labels, sex, n - 1);
      if labels[n - 1][sex] != "None" {
        assert Known(labels, sex, n) == idx + [n - 1];
        GatherAppend(labels, idx, n - 1);
        GatherAppend(data, idx, n - 1);
      } else {
        assert Known(labels, sex, n) == idx;
      }
    } else {
      assert Gather(labels, []) == [] && Gather(data, []) == [];
    }
  }

  /** A failed loop stays failed with the same exception. */
  lemma {:induction false} KeptErr(labels: seq<Row>, data: seq<Row>, sex: nat, n: nat, m: nat)
    requires n <= m <= |labels| && KeptUpTo(labels, data, sex, n).Err?
    ensures KeptUpTo(labels, data, sex, m) == KeptUpTo(labels, data, sex, n)
    decreases m
  {
    if m > n {
      KeptErr(labels, data, sex, n, m - 1);
    }
  }

  /** The whole script on the two files, each given as its rows: read both
      headers (lines 23 and 26), look up the diagnosis and gender columns
      (lines 28-29), filter (lines 33-39) and write each header before its
      kept rows (lines 47-51). */
  function Filter(dataFile: seq<Row>, labelFile: seq<Row>): Result<Output> {
    if |dataFile| == 0 || |labelFile| == 0 then Err("StopIteration")
    else
      var _ :- Find(labelFile[0], "diagnosis");
      var sex :- Find(labelFile[0], "gender");
      var kept :- KeptUpTo(labelFile[1..], dataFile[1..], sex, |labelFile| - 1);
      Ok(Output([labelFile[0]] + kept.0, [dataFile[0]] + kept.1))
  }

  /** What the output files hold: each header unchanged, then the same
      selection of rows from both files, namely the label rows with a known
      gender, in input order. */
  lemma {:induction false} FilterOutput(dataFile: seq<Row>, labelFile: seq<Row>)
    requires Filter(dataFile, labelFile).Ok?
    ensures |labelFile| > 0 && "gender" in labelFile[0]
    ensures var o := Filter(dataFile, labelFile).value;
      var sex := Find(labelFile[0], "gender").value;
      var labels, data := labelFile[1..], dataFile[1..];
      |labels| <= |data| && HasSex(labels, sex, |labels|) &&
      o.labels == [labelFile[0]] + Gather(labels, Known(labels, sex, |labels|)) &&
      o.data == [dataFile[0]] + Gather(data, Known(labels, sex, |labels|))
  {
    var sex := Find(labelFile[0], "gender").value;
    var labels, data := labelFile[1..], dataFile[1..];
    KeptUpToOk(labels, data, sex, |labels|);
    KeptUpToPairs(labels, data, sex, |labels|);
  }

  /** Lines 21-51. */
  method FilterKnownSex(dataFile: seq<Row>, labelFile: seq<Row>) returns (r: Result<Output>)
    ensures r == Filter(dataFile, labelFile)
  {
    if |dataFile| == 0 || |labelFile| == 0 {
      return Err("StopIteration");
    }
    var header, labelHeader := dataFile[0], labelFile[0];
    var diag := Find(labelHeader, "diagnosis");
    if diag.Err? {
      return Err(diag.message);
    }
    var sexIndex := Find(labelHeader, "gender");
    if sexIndex.Err? {
      return Err(sexIndex.message);
    }
    var sex := sexIndex.value;
    var labels, data := labelFile[1..], dataFile[1..];
    var filteredData: seq<Row> := [];
    var filteredLabels: seq<Row> := [];
    for i := 0 to |labels|
      invariant KeptUpTo(labels, data, sex, i) == Ok((filteredLabels, filteredData))
    {
      if i >= |data| {
        KeptErr(labels, data, sex, i + 1, |labels|);
        return Err("StopIteration");
      }
      var sample := data[i];
      if sex >= |labels[i]| {
        KeptErr(labels, data, sex, i + 1, |labels|);
        return Err("IndexError");
      }
      if labels[i][sex] != "None" {
        filteredData := filteredData + [sample];
        filteredLabels := filteredLabels + [labels[i]];
      }
    }
    return Ok(Output([labelHeader] + filteredLabels, [header] + filteredData));
  }
}
