/** The ordinal cleaner: it shifts every answer up by one so that 0 means
    a missing answer, keeps for every feature the answers common enough to
    be options, drops the features with fewer than two options, and recodes
    each remaining feature: a two-option feature as -1/1, a longer one by
    the rank of the answer among the options, anything else as 0. One map
    line per feature records its options. */
module CleanOrdinals {
  import opened Wrappers
  import opened Strings
  import opened Lists

  /** A matrix as its rows. */
  type Matrix = seq<seq<int>>

  /** Line 32: an answer is an option when it occurs more than this many
      times in its feature. */
  const MIN_COUNT: nat := 100

  /** Every row has `n` cells. */
  predicate Rect(M: Matrix, n: nat) {
    forall r :: 0 <= r < |M| ==> |M[r]| == n
  }

  /** The cells of a two-dimensional array, row by row. */
  function Cells(a: array2<int>): (M: Matrix)
    reads a
    ensures |M| == a.Length0 && Rect(M, a.Length1)
    ensures forall r, c :: 0 <= r < a.Length0 && 0 <= c < a.Length1 ==> M[r][c] == a[r, c]
  {
    seq(a.Length0, r requires 0 <= r < a.Length0 reads a =>
      seq(a.Length1, c requires 0 <= c < a.Length1 reads a => a[r, c]))
  }

  /** Column `i` of a matrix of width `n`: numpy's `M[:, i]`. */
  function Column(M: Matrix, n: nat, i: nat): (col: seq<int>)
    requires Rect(M, n) && i < n
    ensures |col| == |M| && forall r :: 0 <= r < |M| ==> col[r] == M[r][i]
  {
    seq(|M|, r requires 0 <= r < |M| => M[r][i])
  }

  // ---------------------------------------------------------------------------
  // The shift (line 24)
  // ---------------------------------------------------------------------------

  /** Line 24: `all_data += 1`. */
  function Shifted(M: Matrix): (S: Matrix)
    ensures |S| == |M| && forall r :: 0 <= r < |M| ==> |S[r]| == |M[r]|
  {
    seq(|M|, r requires 0 <= r < |M| => seq(|M[r]|, c requires 0 <= c < |M[r]| => M[r][c] + 1))
  }

  /** The shift keeps the shape, and a shifted cell is 0 exactly when the
      answer was coded -1, the code for a missing answer; every other
      answer of the data, from 0 up, becomes positive. */
  lemma {:induction false} ShiftedCells(M: Matrix, n: nat, r: nat, c: nat)
    requires Rect(M, n) && r < |M| && c < n
    ensures Rect(Shifted(M), n)
    ensures Shifted(M)[r][c] == M[r][c] + 1
    ensures Shifted(M)[r][c] == 0 <==> M[r][c] == -1
    ensures Shifted(M)[r][c] > 0 <==> M[r][c] >= 0
  {
  }

  /** The options as the map file writes them: `[x - 1 for x in options]`,
      the answers in the data's own coding. */
  function Unshift(xs: seq<int>): (ys: seq<int>)
    ensures |ys| == |xs|
  {
    seq(|xs|, k requires 0 <= k < |xs| => xs[k] - 1)
  }

  /** Unshifting undoes the shift of line 24 cell by cell. */
  lemma {:induction false} UnshiftShifted(M: Matrix, r: nat)
    requires r < |M|
    ensures Unshift(Shifted(M)[r]) == M[r]
  {
  }

  // ---------------------------------------------------------------------------
  // The options of a feature (lines 29-33)
  // ---------------------------------------------------------------------------

  predicate StrictlyIncreasing(s: seq<int>) {
    forall a, b :: 0 <= a < b < |s| ==> s[a] < s[b]
  }

  /** A value below every element can go in front. */
  lemma {:induction false} ConsIncreasing(x: int, s: seq<int>)
    requires StrictlyIncreasing(s) && forall y :: y in s ==> x < y
    ensures StrictlyIncreasing([x] + s)
  {
    forall a, b | 0 <= a < b < |s| + 1
      ensures ([x] + s)[a] < ([x] + s)[b]
    {
      assert ([x] + s)[b] == s[b - 1] && s[b - 1] in s;
      if a > 0 {
        assert ([x] + s)[a] == s[a - 1];
      }
    }
  }

  /** The head of a strictly increasing list is below the rest. */
  lemma {:induction false} HeadBelow(s: seq<int>)
    requires StrictlyIncreasing(s) && |s| > 0
    ensures forall y :: y in s[1..] ==> s[0] < y
  {
    forall y | y in s[1..]
      ensures s[0] < y
    {
      var k :| 0 <= k < |s[1..]| && s[1..][k] == y;
      assert s[k + 1] == y;
    }
  }

  /** `x` put into its place in a strictly increasing list, if absent. */
  function Insert(x: int, s: seq<int>): (r: seq<int>)
    requires StrictlyIncreasing(s)
    ensures StrictlyIncreasing(r)
    ensures forall y :: y in r <==> y == x || y in s
  {
    if |s| == 0 then [x]
    else if x < s[0] then
      HeadBelow(s);
      assert forall y :: y in s ==> y == s[0] || y in s[1..];
      ConsIncreasing(x, s);
      [x] + s
    else if x == s[0] then s
    else
      var rest := Insert(x, s[1..]);
      HeadBelow(s);
      ConsIncreasing(s[0], rest);
      [s[0]] + rest
  }

  /** Line 30, `np.unique(col)`: the distinct values of `col`, in
      increasing order. */
  function Unique(col: seq<int>): (r: seq<int>)
    ensures StrictlyIncreasing(r)
    ensures forall y :: y in r <==> y in col
  {
    if |col| == 0 then []
    else
      var init := col[..|col| - 1];
      assert col == init + [col[|col| - 1]];
      Insert(col[|col| - 1], Unique(init))
  }

  /** Line 32 on the values `xs`: those above 0 that occur in `col` more
      than MIN_COUNT times, in the order of `xs`. */
  function Frequent(xs: seq<int>, col: seq<int>): (r: seq<int>)
    requires StrictlyIncreasing(xs)
    ensures StrictlyIncreasing(r)
    ensures forall y :: y in r <==> y in xs && y > 0 && multiset(col)[y] > MIN_COUNT
  {
    if |xs| == 0 then []
    else
      var rest := Frequent(xs[1..], col);
      HeadBelow(xs);
      assert forall y :: y in xs ==> y == xs[0] || y in xs[1..];
      if xs[0] > 0 && multiset(col)[xs[0]] > MIN_COUNT then
        ConsIncreasing(xs[0], rest);
        [xs[0]] + rest
      else rest
  }

  /** Lines 30-32: a feature's options are its distinct answers above 0
      (so never the missing answer) that occur more than MIN_COUNT times,
      in increasing order. */
  function Options(col: seq<int>): (r: seq<int>)
    ensures StrictlyIncreasing(r)
    ensures forall y :: y in r <==> y in col && y > 0 && multiset(col)[y] > MIN_COUNT
  {
    Frequent(Unique(col), col)
  }

  /** Lines 29-33: the options of every feature. */
  function OptionMap(S: Matrix, n: nat): (om: seq<seq<int>>)
    requires Rect(S, n)
    ensures |om| == n
  {
    seq(n, i requires 0 <= i < n => Options(Column(S, n, i)))
  }

  // ---------------------------------------------------------------------------
  // Dropping features with fewer than two options (lines 36-38)
  // ---------------------------------------------------------------------------

  /** Line 37, `[i for i, os in enumerate(option_map) if len(os) > 1]`, over
      the first `n` features. */
  function KeptUpTo(om: seq<seq<int>>, n: nat): (cols: seq<nat>)
    requires n <= |om|
    ensures forall k :: 0 <= k < |cols| ==> cols[k] < n
  {
    if n == 0 then []
    else KeptUpTo(om, n - 1) + (if |om[n - 1]| > 1 then [n - 1] else [])
  }

  function Kept(om: seq<seq<int>>): (cols: seq<nat>)
    ensures InRange(om, cols)
  {
    KeptUpTo(om, |om|)
  }

  /** A feature is kept exactly when it has at least two options. */
  lemma {:induction false} KeptMembers(om: seq<seq<int>>, n: nat, i: nat)
    requires n <= |om|
    ensures i in KeptUpTo(om, n) <==> i < n && |om[i]| > 1
  {
    if n > 0 {
      KeptMembers(om, n - 1, i);
    }
  }

  /** The kept features stay in their order. */
  lemma {:induction false} KeptIncreasing(om: seq<seq<int>>, n: nat)
    requires n <= |om|
    ensures Increasing(KeptUpTo(om, n))
  {
    if n > 0 {
      KeptIncreasing(om, n - 1);
    }
  }

  /** The selection over fewer features is a prefix of the selection over
      more. */
  lemma {:induction false} KeptPrefix(om: seq<seq<int>>, n: nat, m: nat)
    requires n <= m <= |om|
    ensures KeptUpTo(om, n) <= KeptUpTo(om, m)
    decreases m
  {
    if m > n {
      KeptPrefix(om, n, m - 1);
    }
  }

  /** Line 36 over the first `n` pairs of `zip(header, option_map)`. */
  function KeptHeaderUpTo(header: seq<string>, om: seq<seq<int>>, n: nat): seq<string>
    requires n <= |header| && n <= |om|
  {
    if n == 0 then []
    else KeptHeaderUpTo(header, om, n - 1) + (if |om[n - 1]| > 1 then [header[n - 1]] else [])
  }

  /** Line 36: `zip` stops at the shorter of the two lists. */
  function KeptHeader(header: seq<string>, om: seq<seq<int>>): seq<string> {
    KeptHeaderUpTo(header, om, if |header| <= |om| then |header| else |om|)
  }

  /** Lines 36 and 37 drop the same features, so the kept header names
      are the names of the kept columns as far as the header reaches. */
  lemma {:induction false} KeptHeaderNames(header: seq<string>, om: seq<seq<int>>, n: nat)
    requires n <= |header| && n <= |om|
    ensures InRange(header, KeptUpTo(om, n)) &&
      KeptHeaderUpTo(header, om, n) == Gather(header, KeptUpTo(om, n))
  {
    if n == 0 {
      assert Gather(header, []) == [];
    } else {
      KeptHeaderNames(header, om, n - 1);
      KeptHeaderStep(header, om, KeptUpTo(om, n - 1), KeptHeaderUpTo(header, om, n - 1), n - 1, n);
    }
  }

  /** One more feature extends both filters alike. */
  lemma {:induction false} KeptHeaderStep(header: seq<string>, om: seq<seq<int>>, cols: seq<nat>, names: seq<string>, k: nat, n: nat)
    requires n == k + 1 && n <= |header| && n <= |om|
    requires cols == KeptUpTo(om, k) && names == KeptHeaderUpTo(header, om, k)
    requires InRange(header, cols) && names == Gather(header, cols)
    ensures InRange(header, KeptUpTo(om, n)) &&
      KeptHeaderUpTo(header, om, n) == Gather(header, KeptUpTo(om, n))
  {
    if |om[k]| > 1 {
      assert KeptUpTo(om, n) == cols + [k];
      assert KeptHeaderUpTo(header, om, n) == names + [header[k]];
      GatherAppend(header, cols, k);
    } else {
      assert KeptUpTo(om, n) == cols;
      assert KeptHeaderUpTo(header, om, n) == names;
    }
  }

  // ---------------------------------------------------------------------------
  // Recoding (lines 41-49)
  // ---------------------------------------------------------------------------

  /** Lines 48-49 after the first `j` options: the masked assignments run in
      order, so the last option equal to `v` decides, and 0 (line 41) stays
      where none is. */
  function RankUpTo(options: seq<int>, v: int, j: nat): int
    requires j <= |options|
  {
    if j == 0 then 0
    else if options[j - 1] == v then j
    else RankUpTo(options, v, j - 1)
  }

  /** Lines 44-49 for one answer `v` of a feature with options `options`. */
  function Recode(options: seq<int>, v: int): int {
    if |options| == 2 then
      if v == options[1] then 1 else if v == options[0] then -1 else 0
    else RankUpTo(options, v, |options|)
  }

  lemma {:induction false} RankUpToAbsent(options: seq<int>, v: int, j: nat)
    requires j <= |options| && v !in options[..j]
    ensures RankUpTo(options, v, j) == 0
  {
    if j > 0 {
      assert options[..j - 1] <= options[..j];
      RankUpToAbsent(options, v, j - 1);
    }
  }

  lemma {:induction false} RankUpToAt(options: seq<int>, j: nat, n: nat)
    requires StrictlyIncreasing(options) && j < n <= |options|
    ensures RankUpTo(options, options[j], n) == j + 1
  {
    if n - 1 != j {
      RankUpToAt(options, j, n - 1);
    }
  }

  /** Line 41: an answer that is not an option of its feature (a rare one,
      or the missing answer 0) is recoded as 0. */
  lemma {:induction false} RecodeAbsent(options: seq<int>, v: int)
    requires v !in options
    ensures Recode(options, v) == 0
  {
    assert options[..|options|] == options;
    RankUpToAbsent(options, v, |options|);
  }

  /** Lines 44-46: of two options, the lower is recoded as -1 and the
      higher as 1. */
  lemma {:induction false} RecodeTwo(options: seq<int>)
    requires StrictlyIncreasing(options) && |options| == 2
    ensures Recode(options, options[0]) == -1 && Recode(options, options[1]) == 1
  {
  }

  /** Lines 47-49: with three or more options, the option of rank `j` is
      recoded as `j + 1`. */
  lemma {:induction false} RecodeRank(options: seq<int>, j: nat)
    requires StrictlyIncreasing(options) && |options| != 2 && j < |options|
    ensures Recode(options, options[j]) == j + 1
  {
    RankUpToAt(options, j, |options|);
  }

  /** Recoding keeps the order of the answers, and an option is never
      recoded as 0. */
  lemma {:induction false} RecodeOrder(options: seq<int>, a: nat, b: nat)
    requires StrictlyIncreasing(options) && |options| >= 2 && a < b < |options|
    ensures 0 != Recode(options, options[a]) < Recode(options, options[b])
  {
    if |options| != 2 {
      RecodeRank(options, a);
      RecodeRank(options, b);
    }
  }

  // ---------------------------------------------------------------------------
  // The whole script as a specification (lines 15-61)
  // ---------------------------------------------------------------------------

  /** One line of the map file (line 50): the feature's header name, its
      number of options and its options in the data's own coding. */
  datatype MapLine = MapLine(name: string, count: nat, options: seq<int>)

  /** What the script writes: the recoded matrix (line 61) and the map
      file (lines 42-50). */
  datatype Output = Output(saved: Matrix, mapLines: seq<MapLine>)

  /** Line 37, `all_data[:, cols]`. */
  function GatherCols(S: Matrix, n: nat, cols: seq<nat>): (K: Matrix)
    requires Rect(S, n) && forall k :: 0 <= k < |cols| ==> cols[k] < n
    ensures |K| == |S| && Rect(K, |cols|)
    ensures forall r, k :: 0 <= r < |S| && 0 <= k < |cols| ==> K[r][k] == S[r][cols[k]]
  {
    seq(|S|, r requires 0 <= r < |S| => Gather(S[r], cols))
  }

  /** Lines 41-49: every cell recoded by the options of its feature. */
  function Recoded(K: Matrix, options: seq<seq<int>>): (R: Matrix)
    requires Rect(K, |options|)
    ensures |R| == |K| && Rect(R, |options|)
    ensures forall r, k :: 0 <= r < |K| && 0 <= k < |options| ==> R[r][k] == Recode(options[k], K[r][k])
  {
    seq(|K|, r requires 0 <= r < |K| =>
      seq(|options|, k requires 0 <= k < |options| => Recode(options[k], K[r][k])))
  }

  /** Line 50 for every kept feature. */
  function MapLines(header: seq<string>, options: seq<seq<int>>): (lines: seq<MapLine>)
    requires |options| <= |header|
    ensures |lines| == |options|
    ensures forall k :: 0 <= k < |options| ==> lines[k] == MapLine(header[k], |options[k]|, Unshift(options[k]))
  {
    seq(|options|, k requires 0 <= k < |options| => MapLine(header[k], |options[k]|, Unshift(options[k])))
  }

  /** The script on the data matrix as read (`m` rows of `n` answers) and
      the first line of the file, whose comma-separated pieces are the
      header (line 21, the last piece keeping the line break). Writing a
      map line for a kept feature beyond the header raises IndexError. */
  function Cleaned(M: Matrix, n: nat, headerLine: string): Result<Output>
    requires Rect(M, n)
  {
    var S := Shifted(M);
    var om := OptionMap(S, n);
    var cols := Kept(om);
    var header := KeptHeader(Split(headerLine, ","), om);
    if |header| < |cols| then Err("IndexError")
    else
      var options := Gather(om, cols);
      Ok(Output(Recoded(GatherCols(S, n, cols), options), MapLines(header, options)))
  }

  /** Line 54's count of the zero cells of column `k` among the first `n`
      rows. */
  function ZeroCount(R: Matrix, k: nat, n: nat): (z: nat)
    requires n <= |R| && forall r :: 0 <= r < |R| ==> k < |R[r]|
    ensures z <= n
  {
    if n == 0 then 0 else ZeroCount(R, k, n - 1) + (if R[n - 1][k] == 0 then 1 else 0)
  }

  /** Lines 54-56: the columns of the `w` columns of `R` that are not
      entirely missing, `percent_missing < 1` (with no rows the fraction
      is not a number and every column goes). */
  function NotMissing(R: Matrix, w: nat): (cols: seq<nat>)
    requires Rect(R, w)
  {
    NotMissingUpTo(R, w, w)
  }

  function NotMissingUpTo(R: Matrix, w: nat, n: nat): (cols: seq<nat>)
    requires Rect(R, w) && n <= w
  {
    if n == 0 then [] else NotMissingUpTo(R, w, n - 1) + (if ZeroCount(R, n - 1, |R|) < |R| then [n - 1] else [])
  }

  // ---------------------------------------------------------------------------
  // Properties of the script
  // ---------------------------------------------------------------------------

  /** The number of kept features grows from `a` to `b` features exactly
      when one of the features in between has two options or more. */
  lemma {:induction false} KeptGrows(om: seq<seq<int>>, a: nat, b: nat)
    requires a <= b <= |om|
    ensures |KeptUpTo(om, a)| <= |KeptUpTo(om, b)|
    ensures |KeptUpTo(om, a)| == |KeptUpTo(om, b)| <==> forall i :: a <= i < b ==> |om[i]| <= 1
    decreases b
  {
    if b > a {
      KeptGrows(om, a, b - 1);
    }
  }

  /** The script fails exactly when a kept feature (one with two options or
      more) has no header name. */
  lemma {:induction false} CleanedOk(M: Matrix, n: nat, headerLine: string)
    requires Rect(M, n)
    ensures var om := OptionMap(Shifted(M), n);
      Cleaned(M, n, headerLine).Ok? <==>
      forall i :: 0 <= i < n && |om[i]| > 1 ==> i < |Split(headerLine, ",")|
  {
    var om := OptionMap(Shifted(M), n);
    var header := Split(headerLine, ",");
    var h := if |header| <= n then |header| else n;
    KeptHeaderNames(header, om, h);
    KeptGrows(om, h, n);
  }

  /** Lines 36-38 and 41-49: the saved matrix has a row for every data row
      and a column for every kept feature, holding that feature's answer
      shifted by one and recoded by its options. */
  lemma {:induction false} CleanedSaved(M: Matrix, n: nat, headerLine: string, r: nat, k: nat)
    requires Rect(M, n) && Cleaned(M, n, headerLine).Ok?
    ensures var om := OptionMap(Shifted(M), n);
      var cols := Kept(om);
      var saved := Cleaned(M, n, headerLine).value.saved;
      |saved| == |M| && Rect(saved, |cols|) &&
      (r < |M| && k < |cols| ==> saved[r][k] == Recode(om[cols[k]], M[r][cols[k]] + 1))
  {
  }

  /** Lines 36 and 50: map line `k` names the `k`-th kept feature, with its
      option count (two or more) and its options shifted back. */
  lemma {:induction false} CleanedMapLines(M: Matrix, n: nat, headerLine: string, k: nat)
    requires Rect(M, n) && Cleaned(M, n, headerLine).Ok?
    ensures var om := OptionMap(Shifted(M), n);
      var cols := Kept(om);
      var lines := Cleaned(M, n, headerLine).value.mapLines;
      |lines| == |cols| &&
      (k < |cols| ==> (cols[k] < |Split(headerLine, ",")| &&
        lines[k] == MapLine(Split(headerLine, ",")[cols[k]], |om[cols[k]]|, Unshift(om[cols[k]])) &&
        lines[k].count >= 2))
  {
    var om := OptionMap(Shifted(M), n);
    var cols := Kept(om);
    var header := Split(headerLine, ",");
    var h := if |header| <= n then |header| else n;
    KeptHeaderNames(header, om, h);
    KeptGrows(om, h, n);
    KeptPrefix(om, h, n);
    if k < |cols| {
      KeptMembers(om, n, cols[k]);
    }
  }

  /** A column with a non-zero cell is not entirely missing. */
  lemma {:induction false} ZeroCountBelow(R: Matrix, k: nat, n: nat, r: nat)
    requires n <= |R| && forall r' :: 0 <= r' < |R| ==> k < |R[r']|
    requires r < n && R[r][k] != 0
    ensures ZeroCount(R, k, n) < n
  {
    if r < n - 1 {
      ZeroCountBelow(R, k, n - 1, r);
    }
  }

  lemma {:induction false} NotMissingMembers(R: Matrix, w: nat, n: nat, k: nat)
    requires Rect(R, w) && n <= w
    ensures k in NotMissingUpTo(R, w, n) <==> k < n && ZeroCount(R, k, |R|) < |R|
  {
    if n > 0 {
      NotMissingMembers(R, w, n - 1, k);
    }
  }

  /** A kept feature's lowest option is the answer of some row, and that
      row's recoded cell is not 0. */
  lemma {:induction false} KeptColumnAnswered(S: Matrix, n: nat, om: seq<seq<int>>, cols: seq<nat>, k: nat) returns (r: nat)
    requires Rect(S, n) && om == OptionMap(S, n) && cols == Kept(om) && k < |cols|
    ensures var R := Recoded(GatherCols(S, n, cols), Gather(om, cols));
      r < |R| && k < |R[r]| && R[r][k] != 0
  {
    var options := om[cols[k]];
    KeptMembers(om, |om|, cols[k]);
    var col := Column(S, n, cols[k]);
    assert options == Options(col);
    assert options[0] in options;
    r :| 0 <= r < |col| && col[r] == options[0];
    RecodeOrder(options, 0, 1);
  }

  /** Every kept feature has an answer that is one of its options, recoded
      as non-zero, so the percent-missing filter of lines 54-56 removes
      nothing: saving `new_all_data` (line 61) instead of the filtered
      matrix loses nothing. */
  lemma {:induction false} MissingFilterKeepsAll(M: Matrix, n: nat, headerLine: string, k: nat)
    requires Rect(M, n) && Cleaned(M, n, headerLine).Ok?
    ensures var saved := Cleaned(M, n, headerLine).value.saved;
      var w := |Kept(OptionMap(Shifted(M), n))|;
      Rect(saved, w) && (k in NotMissing(saved, w) <==> k < w)
  {
    var S := Shifted(M);
    var om := OptionMap(S, n);
    var cols := Kept(om);
    var w := |cols|;
    var saved := Recoded(GatherCols(S, n, cols), Gather(om, cols));
    assert saved == Cleaned(M, n, headerLine).value.saved;
    NotMissingMembers(saved, w, w, k);
    if k < w {
      var r := KeptColumnAnswered(S, n, om, cols, k);
      ZeroCountBelow(saved, k, |saved|, r);
    }
  }

  // ---------------------------------------------------------------------------
  // The script as it runs (lines 15-61)
  // ---------------------------------------------------------------------------

  /** Line 24, in place. */
  method ShiftAll(a: array2<int>)
    modifies a
    ensures forall r, c :: 0 <= r < a.Length0 && 0 <= c < a.Length1 ==> a[r, c] == old(a[r, c]) + 1
  {
    for r := 0 to a.Length0
      invariant forall r', c :: 0 <= r' < a.Length0 && 0 <= c < a.Length1 ==>
        a[r', c] == old(a[r', c]) + (if r' < r then 1 else 0)
    {
      for c := 0 to a.Length1
        invariant forall r', c' :: 0 <= r' < a.Length0 && 0 <= c' < a.Length1 ==>
          a[r', c'] == old(a[r', c']) + (if r' < r || (r' == r && c' < c) then 1 else 0)
      {
        a[r, c] := a[r, c] + 1;
      }
    }
  }

  /** Lines 30-32: the options of feature `i`. */
  method FeatureOptions(S: Matrix, n: nat, ghost spec: seq<seq<int>>, i: nat) returns (options: seq<int>)
    requires Rect(S, n) && spec == OptionMap(S, n) && i < n
    ensures options == spec[i]
  {
    options := Options(Column(S, n, i));
  }

  /** Lines 28-33. */
  method OptionMapOf(S: Matrix, n: nat) returns (om: seq<seq<int>>)
    requires Rect(S, n)
    ensures om == OptionMap(S, n)
  {
    om := [];
    ghost var spec := OptionMap(S, n);
    for i := 0 to n
      invariant om == spec[..i]
    {
      var options := FeatureOptions(S, n, spec, i);
      om := om + [options];
    }
    assert spec[..n] == spec;
  }

  /** `b[col == v, i] = c`: column `i` of `b` becomes `c` in the rows where
      `col` holds `v`. */
  method MaskedSet(b: array2<int>, col: seq<int>, i: nat, v: int, c: int)
    requires |col| == b.Length0 && i < b.Length1
    modifies b
    ensures forall r, k :: 0 <= r < b.Length0 && 0 <= k < b.Length1 ==>
      b[r, k] == if k == i && col[r] == v then c else old(b[r, k])
  {
    for r := 0 to b.Length0
      invariant forall r', k :: 0 <= r' < b.Length0 && 0 <= k < b.Length1 ==>
        b[r', k] == if k == i && r' < r && col[r'] == v then c else old(b[r', k])
    {
      if col[r] == v {
        b[r, i] := c;
      }
    }
  }

  /** Lines 44-49 for feature `i`, whose column of `new_all_data` is still
      all zero. */
  method RecodeColumn(b: array2<int>, col: seq<int>, i: nat, options: seq<int>)
    requires |col| == b.Length0 && i < b.Length1
    requires forall r :: 0 <= r < b.Length0 ==> b[r, i] == 0
    modifies b
    ensures forall r, k :: 0 <= r < b.Length0 && 0 <= k < b.Length1 ==>
      b[r, k] == if k == i then Recode(options, col[r]) else old(b[r, k])
  {
    if |options| == 2 {
      MaskedSet(b, col, i, options[0], -1);
      MaskedSet(b, col, i, options[1], 1);
    } else {
      for j := 0 to |options|
        invariant forall r, k :: 0 <= r < b.Length0 && 0 <= k < b.Length1 ==>
          b[r, k] == if k == i then RankUpTo(options, col[r], j) else old(b[r, k])
      {
        MaskedSet(b, col, i, options[j], j + 1);
      }
    }
  }

  /** Lines 41-50: fill `new_all_data` column by column and write a map
      line per kept feature; IndexError at the first feature without a
      header name. */
  method RecodeAll(kept: Matrix, options: seq<seq<int>>, header: seq<string>) returns (r: Result<(Matrix, seq<MapLine>)>)
    requires Rect(kept, |options|)
    ensures r == if |header| < |options| then Err("IndexError")
      else Ok((Recoded(kept, options), MapLines(header, options)))
  {
    var m, w := |kept|, |options|;
    var newAllData := new int[m, w]((_, _) => 0);
    var lines: seq<MapLine> := [];
    for i := 0 to w
      invariant i <= |header|
      invariant forall r, k :: 0 <= r < m && 0 <= k < w ==>
        newAllData[r, k] == if k < i then Recode(options[k], kept[r][k]) else 0
      invariant lines == MapLines(header[..i], options[..i])
    {
      RecodeColumn(newAllData, Column(kept, w, i), i, options[i]);
      if i >= |header| {
        return Err("IndexError");
      }
      lines := lines + [MapLine(header[i], |options[i]|, Unshift(options[i]))];
    }
    var saved := Cells(newAllData);
    assert saved == Recoded(kept, options) by {
      forall i | 0 <= i < m
        ensures saved[i] == Recoded(kept, options)[i]
      {
      }
    }
    assert options[..w] == options;
    assert MapLines(header[..w], options) == MapLines(header, options);
    return Ok((saved, lines));
  }

  /** Lines 15-61 on the data matrix, which line 24 shifts in place, and
      the first line of the file. */
  method Clean(data: array2<int>, headerLine: string) returns (r: Result<Output>)
    modifies data
    ensures forall i, j :: 0 <= i < data.Length0 && 0 <= j < data.Length1 ==> data[i, j] == old(data[i, j]) + 1
    ensures r == Cleaned(old(Cells(data)), data.Length1, headerLine)
  {
    ghost var M := Cells(data);
    var n := data.Length1;
    var header := Split(headerLine, ",");
    ShiftAll(data);
    var S := Cells(data);
    assert S == Shifted(M) by {
      forall i | 0 <= i < |S|
        ensures S[i] == Shifted(M)[i]
      {
      }
    }
    var optionMap := OptionMapOf(S, n);
    var keptHeader := KeptHeader(header, optionMap);
    var cols := Kept(optionMap);
    var options := Gather(optionMap, cols);
    var written := RecodeAll(GatherCols(S, n, cols), options, keptHeader);
    if written.Err? {
      return Err(written.message);
    }
    return Ok(Output(written.value.0, written.value.1));
  }
}
