/** The gender-analysis preparation: each label line is encoded as a gender
    code and a diagnosis code, only the rows of known gender are kept, and
    those of known diagnosis are moved ahead of the others. One index list
    selects the data rows, the label lines and the code rows alike. */
module PrepareGenderAnalysis {
  import opened Wrappers
  import opened Strings
  import opened Lists

  /** Gender and diagnosis code of one row (a row of `gender_diag`). */
  type Codes = (int, int)

  /** The three outputs: the label lines written (header first), the data
      rows and the code rows. */
  datatype Output = Output(labels: seq<string>, data: seq<seq<int>>, codes: seq<Codes>)

  // ---------------------------------------------------------------------------
  // Encoding one label line (lines 28-37)
  // ---------------------------------------------------------------------------

  /** Lines 29-32. */
  function GenderCode(cell: string): (c: int)
    ensures c == 1 <==> cell == "Male"
    ensures c == -1 <==> cell == "Female"
    ensures c == 0 <==> cell != "Male" && cell != "Female"
  {
    if cell == "Male" then 1 else if cell == "Female" then -1 else 0
  }

  /** Lines 34-37. */
  function DiagnosisCode(cell: string): (c: int)
    ensures c == 1 <==> cell in {"Autism", "PDD-NOS", "Asperger"}
    ensures c == -1 <==> cell == "Control"
    ensures c == 0 <==> cell !in {"Autism", "PDD-NOS", "Asperger", "Control"}
  {
    if cell in ["Autism", "PDD-NOS", "Asperger"] then 1 else if cell == "Control" then -1 else 0
  }

  /** Label line `i` is handled without an IndexError: it has both cells,
      and a non-zero code is only written to a row the data matrix has. */
  predicate LineFits(line: string, i: nat, m: nat, gi: nat, di: nat) {
    var pieces := Split(line, ",");
    gi < |pieces| && (GenderCode(pieces[gi]) != 0 ==> i < m) &&
    di < |pieces| && (DiagnosisCode(pieces[di]) != 0 ==> i < m)
  }

  /** The first `n` label lines are handled without an IndexError. */
  predicate Fits(lines: seq<string>, gi: nat, di: nat, m: nat, n: nat)
    requires n <= |lines|
  {
    forall i :: 0 <= i < n ==> LineFits(lines[i], i, m, gi, di)
  }

  /** The codes of one label line. */
  function CodesOf(line: string, gi: nat, di: nat): Codes
    requires gi < |Split(line, ",")| && di < |Split(line, ",")|
  {
    var pieces := Split(line, ",");
    (GenderCode(pieces[gi]), DiagnosisCode(pieces[di]))
  }

  /** `gender_diag` once the first `n` label lines are encoded: rows without
      a label line keep their zeros. */
  function CodesUpTo(lines: seq<string>, gi: nat, di: nat, m: nat, n: nat): (codes: seq<Codes>)
    requires n <= |lines| && Fits(lines, gi, di, m, n)
    ensures |codes| == m
  {
    seq(m, j requires 0 <= j < m => if j < n then CodesOf(lines[j], gi, di) else (0, 0))
  }

  // ---------------------------------------------------------------------------
  // Row selection (line 41)
  // ---------------------------------------------------------------------------

  /** Known gender, and known or unknown diagnosis as `known` says. */
  predicate Selected(c: Codes, known: bool) {
    c.0 != 0 && (c.1 != 0) == known
  }

  /** One `np.where` of line 41 over the first `n` code rows. */
  function Where(codes: seq<Codes>, known: bool, n: nat): (idx: seq<nat>)
    requires n <= |codes|
    ensures forall k :: 0 <= k < |idx| ==> idx[k] < n
  {
    if n == 0 then []
    else Where(codes, known, n - 1) + (if Selected(codes[n - 1], known) then [n - 1] else [])
  }

  /** Line 41: `pull_indices`. */
  function Pull(codes: seq<Codes>): (idx: seq<nat>)
    ensures InRange(codes, idx)
  {
    Where(codes, true, |codes|) + Where(codes, false, |codes|)
  }

  lemma {:induction false} WhereMembers(codes: seq<Codes>, known: bool, n: nat, i: nat)
    requires n <= |codes|
    ensures i in Where(codes, known, n) <==> i < n && Selected(codes[i], known)
  {
    if n > 0 {
      WhereMembers(codes, known, n - 1, i);
    }
  }

  lemma {:induction false} WhereIncreasing(codes: seq<Codes>, known: bool, n: nat)
    requires n <= |codes|
    ensures Increasing(Where(codes, known, n))
  {
    if n > 0 {
      WhereIncreasing(codes, known, n - 1);
    }
  }

  /** The selected rows are exactly those with a non-zero gender code. */
  lemma {:induction false} PullMembers(codes: seq<Codes>, i: nat)
    ensures i in Pull(codes) <==> i < |codes| && codes[i].0 != 0
  {
    WhereMembers(codes, true, |codes|, i);
    WhereMembers(codes, false, |codes|, i);
  }

  /** Every known-diagnosis row comes before every unknown-diagnosis row,
      and within each group the rows keep their order. */
  lemma {:induction false} PullOrder(codes: seq<Codes>)
    ensures var p := Pull(codes);
      forall a, b :: 0 <= a < b < |p| ==>
        (codes[p[b]].1 != 0 ==> codes[p[a]].1 != 0) &&
        ((codes[p[a]].1 != 0) == (codes[p[b]].1 != 0) ==> p[a] < p[b])
  {
    WhereIncreasing(codes, true, |codes|);
    WhereIncreasing(codes, false, |codes|);
    var p := Pull(codes);
    forall a, b | 0 <= a < b < |p|
      ensures (codes[p[b]].1 != 0 ==> codes[p[a]].1 != 0) &&
        ((codes[p[a]].1 != 0) == (codes[p[b]].1 != 0) ==> p[a] < p[b])
    {
      WhereSelected(codes, true, |codes|, p, a);
      WhereSelected(codes, true, |codes|, p, b);
      WhereSelected(codes, false, |codes|, p, a);
      WhereSelected(codes, false, |codes|, p, b);
    }
  }

  /** Where the k-th pulled index comes from, and what that row holds. */
  lemma {:induction false} WhereSelected(codes: seq<Codes>, known: bool, n: nat, p: seq<nat>, k: nat)
    requires n == |codes| && p == Pull(codes) && k < |p|
    ensures known && k < |Where(codes, true, n)| ==> p[k] == Where(codes, true, n)[k] && Selected(codes[p[k]], true)
    ensures !known && k >= |Where(codes, true, n)| ==>
      p[k] == Where(codes, false, n)[k - |Where(codes, true, n)|] && Selected(codes[p[k]], false)
  {
    if known && k < |Where(codes, true, n)| {
      WhereMembers(codes, true, n, p[k]);
    } else if !known && k >= |Where(codes, true, n)| {
      WhereMembers(codes, false, n, p[k]);
    }
  }

  /** A row with a known gender code has a label line, so line 43 never
      indexes past `label_lines`. */
  lemma {:induction false} PullInLines(lines: seq<string>, gi: nat, di: nat, m: nat)
    requires Fits(lines, gi, di, m, |lines|)
    ensures InRange(lines, Pull(CodesUpTo(lines, gi, di, m, |lines|)))
  {
    var codes := CodesUpTo(lines, gi, di, m, |lines|);
    var p := Pull(codes);
    forall k | 0 <= k < |p|
      ensures p[k] < |lines|
    {
      PullMembers(codes, p[k]);
    }
  }

  // ---------------------------------------------------------------------------
  // The script (lines 13-46)
  // ---------------------------------------------------------------------------

  /** The script on the data matrix, given as its rows, and the label file,
      given as its lines. */
  function Prepare(data: seq<seq<int>>, labelFile: seq<string>): Result<Output> {
    if |labelFile| == 0 then Err("StopIteration")
    else
      var header := Split(labelFile[0], ",");
      var gi :- Find(header, "gender");
      var di :- Find(header, "clinical_diagnosis");
      var lines := labelFile[1..];
      if !Fits(lines, gi, di, |data|, |lines|) then Err("IndexError")
      else
        var codes := CodesUpTo(lines, gi, di, |data|, |lines|);
        var pull := Pull(codes);
        PullInLines(lines, gi, di, |data|);
        Ok(Output([labelFile[0]] + Gather(lines, pull), Gather(data, pull), Gather(codes, pull)))
  }

  /** Line 29: the gender cell of a label line is Male or Female. */
  predicate KnownGender(line: string, gi: nat) {
    var pieces := Split(line, ",");
    gi < |pieces| && pieces[gi] in {"Male", "Female"}
  }

  /** Line 34: the diagnosis cell is one of the four known labels. */
  predicate KnownDiagnosis(line: string, di: nat) {
    var pieces := Split(line, ",");
    di < |pieces| && pieces[di] in {"Autism", "PDD-NOS", "Asperger", "Control"}
  }

  /** A row's codes are non-zero exactly when its label line has a known
      gender or a known diagnosis. */
  lemma {:induction false} CodesKnown(lines: seq<string>, gi: nat, di: nat, m: nat, i: nat)
    requires Fits(lines, gi, di, m, |lines|) && i < m
    ensures var c := CodesUpTo(lines, gi, di, m, |lines|)[i];
      (c.0 != 0 <==> i < |lines| && KnownGender(lines[i], gi)) &&
      (c.1 != 0 <==> i < |lines| && KnownDiagnosis(lines[i], di))
  {
  }

  /** Line 41: a row is selected exactly when it has a data row, a label
      line and a known gender; the diagnosis plays no part in whether. */
  lemma {:induction false} SelectionMembers(lines: seq<string>, gi: nat, di: nat, m: nat, i: nat)
    requires Fits(lines, gi, di, m, |lines|)
    ensures i in Pull(CodesUpTo(lines, gi, di, m, |lines|)) <==> i < |lines| && i < m && KnownGender(lines[i], gi)
  {
    PullMembers(CodesUpTo(lines, gi, di, m, |lines|), i);
    if i < m {
      CodesKnown(lines, gi, di, m, i);
    }
  }

  /** Line 41: the rows of known diagnosis come first, and each group keeps
      the input order. */
  lemma {:induction false} SelectionOrder(lines: seq<string>, gi: nat, di: nat, m: nat)
    requires Fits(lines, gi, di, m, |lines|)
    ensures var p := Pull(CodesUpTo(lines, gi, di, m, |lines|));
      InRange(lines, p) &&
      forall a, b :: 0 <= a < b < |p| ==>
        (KnownDiagnosis(lines[p[b]], di) ==> KnownDiagnosis(lines[p[a]], di)) &&
        (KnownDiagnosis(lines[p[a]], di) == KnownDiagnosis(lines[p[b]], di) ==> p[a] < p[b])
  {
    var codes := CodesUpTo(lines, gi, di, m, |lines|);
    var p := Pull(codes);
    PullInLines(lines, gi, di, m);
    PullOrder(codes);
    forall k | 0 <= k < |p|
      ensures (codes[p[k]].1 != 0) == KnownDiagnosis(lines[p[k]], di)
    {
      CodesKnown(lines, gi, di, m, p[k]);
    }
  }

  /** Lines 42-46: the k-th code row written holds the codes of the k-th
      label line written. */
  lemma {:induction false} SelectionCodes(lines: seq<string>, gi: nat, di: nat, m: nat, k: nat)
    requires Fits(lines, gi, di, m, |lines|)
    requires k < |Pull(CodesUpTo(lines, gi, di, m, |lines|))|
    ensures var codes := CodesUpTo(lines, gi, di, m, |lines|);
      var p := Pull(codes);
      p[k] < |lines| && Gather(codes, p)[k] == CodesOf(lines[p[k]], gi, di)
  {
    PullInLines(lines, gi, di, m);
  }

  /** The outputs of a run that succeeds: the label header first and
      unchanged, then the label lines, the data rows and the code rows at
      the one index list `Pull`, which the lemmas above describe. */
  lemma {:induction false} PrepareOutput(data: seq<seq<int>>, labelFile: seq<string>)
    requires Prepare(data, labelFile).Ok?
    ensures |labelFile| > 0
    ensures "gender" in Split(labelFile[0], ",") && "clinical_diagnosis" in Split(labelFile[0], ",")
    ensures var header := Split(labelFile[0], ",");
      var gi, di := Find(header, "gender").value, Find(header, "clinical_diagnosis").value;
      var lines := labelFile[1..];
      Fits(lines, gi, di, |data|, |lines|) &&
      var codes := CodesUpTo(lines, gi, di, |data|, |lines|);
      var p := Pull(codes);
      InRange(lines, p) && InRange(data, p) &&
      Prepare(data, labelFile).value == Output([labelFile[0]] + Gather(lines, p), Gather(data, p), Gather(codes, p))
  {
    var header := Split(labelFile[0], ",");
    var gi, di := Find(header, "gender").value, Find(header, "clinical_diagnosis").value;
    PullInLines(labelFile[1..], gi, di, |data|);
  }

  // ---------------------------------------------------------------------------
  // The imperative script
  // ---------------------------------------------------------------------------

  /** Lines 28-37 for label line `i`: write its non-zero codes into row
      `i`, which still holds its initial zeros. */
  method EncodeLine(genderDiag: array<Codes>, i: nat, line: string, gi: nat, di: nat) returns (ok: bool)
    requires i < genderDiag.Length ==> genderDiag[i] == (0, 0)
    modifies genderDiag
    ensures ok == LineFits(line, i, genderDiag.Length, gi, di)
    ensures ok && i < genderDiag.Length ==> genderDiag[..] == old(genderDiag[..])[i := CodesOf(line, gi, di)]
    ensures ok && i >= genderDiag.Length ==> genderDiag[..] == old(genderDiag[..])
  {
    var pieces := Split(line, ",");
    if gi >= |pieces| {
      return false;
    }
    if pieces[gi] == "Male" || pieces[gi] == "Female" {
      if i >= genderDiag.Length {
        return false;
      }
      genderDiag[i] := (GenderCode(pieces[gi]), genderDiag[i].1);
    }
    if di >= |pieces| {
      return false;
    }
    if pieces[di] in ["Autism", "PDD-NOS", "Asperger", "Control"] {
      if i >= genderDiag.Length {
        return false;
      }
      genderDiag[i] := (genderDiag[i].0, DiagnosisCode(pieces[di]));
    }
    ok := true;
  }

  /** Lines 27-39: encode every label line into `gender_diag` and collect
      the lines. */
  method EncodeLines(genderDiag: array<Codes>, lines: seq<string>, gi: nat, di: nat) returns (ok: bool, labelLines: seq<string>)
    requires forall j :: 0 <= j < genderDiag.Length ==> genderDiag[j] == (0, 0)
    modifies genderDiag
    ensures ok == Fits(lines, gi, di, genderDiag.Length, |lines|)
    ensures ok ==> labelLines == lines && genderDiag[..] == CodesUpTo(lines, gi, di, genderDiag.Length, |lines|)
  {
    var m := genderDiag.Length;
    labelLines := [];
    for i := 0 to |lines|
      invariant labelLines == lines[..i]
      invariant Fits(lines, gi, di, m, i)
      invariant genderDiag[..] == CodesUpTo(lines, gi, di, m, i)
    {
      var fits := EncodeLine(genderDiag, i, lines[i], gi, di);
      if !fits {
        return false, labelLines;
      }
      assert genderDiag[..] == CodesUpTo(lines, gi, di, m, i + 1);
      labelLines := labelLines + [lines[i]];
    }
    return true, labelLines;
  }

  /** Lines 26 and 42-43: the header line, then the pulled label lines. */
  method WriteLabels(line: string, labelLines: seq<string>, pull: seq<nat>) returns (written: seq<string>)
    requires InRange(labelLines, pull)
    ensures written == [line] + Gather(labelLines, pull)
  {
    written := [line];
    for k := 0 to |pull|
      invariant written == [line] + Gather(labelLines, pull[..k])
    {
      assert pull[..k + 1] == pull[..k] + [pull[k]];
      GatherAppend(labelLines, pull[..k], pull[k]);
      written := written + [labelLines[pull[k]]];
    }
    assert pull[..|pull|] == pull;
  }

  /** Lines 13-46. */
  method PrepareGender(data: seq<seq<int>>, labelFile: seq<string>) returns (r: Result<Output>)
    ensures r == Prepare(data, labelFile)
  {
    var m := |data|;
    var genderDiag := new Codes[m](_ => (0, 0));
    if |labelFile| == 0 {
      return Err("StopIteration");
    }
    var line := labelFile[0];
    var header := Split(line, ",");
    var genderIndex := Find(header, "gender");
    if genderIndex.Err? {
      return Err(genderIndex.message);
    }
    var diagIndex := Find(header, "clinical_diagnosis");
    if diagIndex.Err? {
      return Err(diagIndex.message);
    }
    var gi, di := genderIndex.value, diagIndex.value;
    var lines := labelFile[1..];
    var ok, labelLines := EncodeLines(genderDiag, lines, gi, di);
    if !ok {
      return Err("IndexError");
    }
    var codes := genderDiag[..];
    var pull := Pull(codes);
    PullInLines(lines, gi, di, m);
    var written := WriteLabels(line, labelLines, pull);
    return Ok(Output(written, Gather(data, pull), Gather(codes, pull)));
  }
}
