/** The CSV-to-JSON converter: each header names a `:`-separated key path,
    every data row becomes one nested sample built on a skeleton of empty
    dicts, and the features the phenotype schema lists for a present
    instrument are filled with null when the row leaves them out. */
module CsvToJson {
  import opened Wrappers
  import opened Json
  import opened Strings

  // ---------------------------------------------------------------------------
  // Key paths (lines 46, 54-56)
  // ---------------------------------------------------------------------------

  /** `x[:-2] if x.endswith('_1') else x`. */
  function StripOne(x: string): (r: string)
    ensures EndsWith(x, "_1") ==> r + "_1" == x
    ensures !EndsWith(x, "_1") ==> r == x
  {
    if EndsWith(x, "_1") then x[..|x| - 2] else x
  }

  /** Line 55: the pieces of a header between its ':'s, each with a trailing
      `_1` removed. */
  function KeyPath(h: string): (keys: seq<string>)
    ensures |keys| == |Split(h, ":")| && |keys| > 0
  {
    var pieces := Split(h, ":");
    seq(|pieces|, i requires 0 <= i < |pieces| => StripOne(pieces[i]))
  }

  /** A header none of whose pieces ends in `_1` is its key path joined back
      with ':'. */
  lemma {:induction false} KeyPathJoin(h: string)
    requires forall i :: 0 <= i < |Split(h, ":")| ==> !EndsWith(Split(h, ":")[i], "_1")
    ensures Join(KeyPath(h), ":") == h
  {
    assert KeyPath(h) == Split(h, ":");
    JoinSplit(h, ":");
  }

  /** `h[n:]` with Python's clamping. */
  function Tail(header: seq<string>, n: nat): seq<string> {
    if n <= |header| then header[n..] else []
  }

  function HeaderPaths(headers: seq<string>): (paths: seq<seq<string>>)
    ensures |paths| == |headers|
    ensures forall i :: 0 <= i < |headers| ==> paths[i] == KeyPath(headers[i])
  {
    seq(|headers|, i requires 0 <= i < |headers| => KeyPath(headers[i]))
  }

  /** Lines 46 and 54-56: `index_to_keys`. */
  function Index(header: seq<string>, cols: nat): seq<seq<string>> {
    [["identifier"]] + seq(cols, _ => []) + HeaderPaths(Tail(header, cols + 1))
  }

  /** Column 0 is the identifier, the next `cols` columns are ignored, and
      every later column is stored at its header's key path. */
  lemma {:induction false} IndexColumns(header: seq<string>, cols: nat, i: nat)
    ensures |Index(header, cols)| == (if |header| > cols + 1 then |header| else cols + 1)
    ensures i == 0 ==> Index(header, cols)[i] == ["identifier"]
    ensures 1 <= i <= cols ==> Index(header, cols)[i] == []
    ensures cols < i < |header| ==> Index(header, cols)[i] == KeyPath(header[i])
  {
    if cols < i < |header| {
      assert Tail(header, cols + 1)[i - cols - 1] == header[i];
    }
  }

  // ---------------------------------------------------------------------------
  // Nested dicts
  // ---------------------------------------------------------------------------

  /** All of `keys` but the last. */
  function Parent(keys: seq<string>): seq<string> {
    if |keys| == 0 then [] else keys[..|keys| - 1]
  }

  predicate IsPrefix(p: seq<string>, q: seq<string>) {
    |p| <= |q| && q[..|p|] == p
  }

  /** The two paths part ways: neither is a prefix of the other. */
  predicate Diverge(p: seq<string>, q: seq<string>) {
    exists i :: 0 <= i < |p| && i < |q| && p[i] != q[i]
  }

  lemma {:induction false} DivergeOrPrefix(p: seq<string>, q: seq<string>)
    ensures Diverge(p, q) || IsPrefix(p, q) || IsPrefix(q, p)
  {
    if !Diverge(p, q) {
      if |p| <= |q| {
        assert q[..|p|] == p;
      } else {
        assert p[..|q|] == q;
      }
    }
  }

  /** The value at a key path, if every step exists. */
  function Lookup(d: Dict, keys: seq<string>): Option<Value>
    requires |keys| > 0
    decreases |keys|
  {
    if keys[0] !in d then None
    else if |keys| == 1 then Some(d[keys[0]])
    else match d[keys[0]]
      case Obj(sub) => Lookup(sub, keys[1..])
      case _ => None
  }

  /** Every key of the path names a dict, each inside the one before. */
  predicate HasDicts(d: Dict, keys: seq<string>)
    decreases |keys|
  {
    |keys| == 0 || (keys[0] in d && d[keys[0]].Obj? && HasDicts(d[keys[0]].fields, keys[1..]))
  }

  /** Lines 67-76: walk `entry_place` down the path and assign the value at
      its last key. A missing step raises KeyError; a step through a value
      that is not a dict raises TypeError. */
  function SetPath(d: Dict, keys: seq<string>, v: Value): Result<Dict>
    requires |keys| > 0
    decreases |keys|
  {
    if |keys| == 1 then Ok(d[keys[0] := v])
    else if keys[0] !in d then Err("KeyError")
    else match d[keys[0]]
      case Obj(sub) =>
        var s :- SetPath(sub, keys[1..], v);
        Ok(d[keys[0] := Obj(s)])
      case _ => Err("TypeError")
  }

  /** The walk succeeds when the dicts along the way exist. */
  lemma {:induction false} SetPathFits(d: Dict, keys: seq<string>, v: Value)
    requires |keys| > 0 && HasDicts(d, Parent(keys))
    ensures SetPath(d, keys, v).Ok?
    decreases |keys|
  {
    if |keys| > 1 {
      assert Parent(keys)[1..] == Parent(keys[1..]);
      SetPathFits(d[keys[0]].fields, keys[1..], v);
    }
  }

  /** The value lands at exactly its path. */
  lemma {:induction false} SetPathLands(d: Dict, keys: seq<string>, v: Value)
    requires |keys| > 0 && SetPath(d, keys, v).Ok?
    ensures Lookup(SetPath(d, keys, v).value, keys) == Some(v)
    decreases |keys|
  {
    if |keys| > 1 {
      SetPathLands(d[keys[0]].fields, keys[1..], v);
    }
  }

  /** A path that parts ways with the written one sees no change. */
  lemma {:induction false} SetPathOthers(d: Dict, keys: seq<string>, v: Value, q: seq<string>)
    requires |keys| > 0 && |q| > 0 && SetPath(d, keys, v).Ok? && Diverge(keys, q)
    ensures Lookup(SetPath(d, keys, v).value, q) == Lookup(d, q)
    decreases |keys|
  {
    if keys[0] == q[0] {
      var i :| 0 <= i < |keys| && i < |q| && keys[i] != q[i];
      assert keys[1..][i - 1] == keys[i] && q[1..][i - 1] == q[i];
      SetPathOthers(d[keys[0]].fields, keys[1..], v, q[1..]);
    }
  }

  /** The dicts along a path the written one does not cover stay dicts. */
  lemma {:induction false} SetPathKeepsDicts(d: Dict, keys: seq<string>, v: Value, q: seq<string>)
    requires |keys| > 0 && SetPath(d, keys, v).Ok? && HasDicts(d, q) && !IsPrefix(keys, q)
    ensures HasDicts(SetPath(d, keys, v).value, q)
    decreases |keys|
  {
    if |q| > 0 && keys[0] == q[0] && |keys| > 1 {
      SetPathKeepsDicts(d[keys[0]].fields, keys[1..], v, q[1..]);
    }
  }

  /** Writing below a value that is not a dict raises. */
  lemma {:induction false} SetPathThroughValue(d: Dict, p: seq<string>, q: seq<string>, v: Value)
    requires 0 < |p| < |q| && IsPrefix(p, q)
    requires Lookup(d, p).Some? && !Lookup(d, p).value.Obj?
    ensures SetPath(d, q, v).Err?
    decreases |p|
  {
    assert q[0] == p[0];
    if |p| > 1 {
      assert IsPrefix(p[1..], q[1..]) by {
        assert q[1..][..|p| - 1] == q[..|p|][1..];
      }
      SetPathThroughValue(d[p[0]].fields, p[1..], q[1..], v);
    }
  }

  // ---------------------------------------------------------------------------
  // The skeleton (lines 57-60)
  // ---------------------------------------------------------------------------

  /** A chain of fresh empty dicts along `keys`. */
  function Nest(keys: seq<string>): Dict
    decreases |keys|
  {
    if |keys| == 0 then map[] else map[keys[0] := Obj(Nest(keys[1..]))]
  }

  /** Lines 58-60 as written: `entry_place[key] = {}` at every step, which
      replaces whatever dict the first key already held. */
  function ResetPath(d: Dict, keys: seq<string>): Dict {
    if |keys| == 0 then d else d[keys[0] := Obj(Nest(keys[1..]))]
  }

  /** The dict under `k`, or a fresh one. */
  function Sub(d: Dict, k: string): Dict {
    if k in d && d[k].Obj? then d[k].fields else map[]
  }

  /** Lines 58-60 as intended: step into the dict already under each key,
      creating it only when it is missing (`setdefault(key, {})`). */
  function OpenPath(d: Dict, keys: seq<string>): Dict
    decreases |keys|
  {
    if |keys| == 0 then d else d[keys[0] := Obj(OpenPath(Sub(d, keys[0]), keys[1..]))]
  }

  lemma {:induction false} OpenPathHas(d: Dict, keys: seq<string>)
    ensures HasDicts(OpenPath(d, keys), keys)
    decreases |keys|
  {
    if |keys| > 0 {
      OpenPathHas(Sub(d, keys[0]), keys[1..]);
    }
  }

  /** Opening a path never removes a dict already there. */
  lemma {:induction false} OpenPathKeeps(d: Dict, keys: seq<string>, q: seq<string>)
    requires HasDicts(d, q)
    ensures HasDicts(OpenPath(d, keys), q)
    decreases |keys|
  {
    if |keys| > 0 && |q| > 0 && keys[0] == q[0] {
      OpenPathKeeps(d[q[0]].fields, keys[1..], q[1..]);
    }
  }

  lemma {:induction false} OpenFresh(keys: seq<string>)
    ensures OpenPath(map[], keys) == Nest(keys)
    decreases |keys|
  {
    if |keys| > 0 {
      OpenFresh(keys[1..]);
    }
  }

  /** Where the first key is new, the written and the intended walk build
      the same dicts: the two differ only on shared prefixes. */
  lemma {:induction false} ResetAgrees(d: Dict, keys: seq<string>)
    requires |keys| > 0 && keys[0] !in d
    ensures ResetPath(d, keys) == OpenPath(d, keys)
  {
    OpenFresh(keys[1..]);
  }

  /** The skeleton after the given key paths. */
  function SkeletonOf(paths: seq<seq<string>>): Dict
    decreases |paths|
  {
    if |paths| == 0 then map[]
    else OpenPath(SkeletonOf(paths[..|paths| - 1]), Parent(paths[|paths| - 1]))
  }

  /** The skeleton as the source writes it. */
  function ResetSkeletonOf(paths: seq<seq<string>>): Dict
    decreases |paths|
  {
    if |paths| == 0 then map[]
    else ResetPath(ResetSkeletonOf(paths[..|paths| - 1]), Parent(paths[|paths| - 1]))
  }

  /** One more header resets its parent path in the skeleton as written. */
  lemma {:induction false} ResetSkeletonOfNext(paths: seq<seq<string>>, k: nat)
    requires k < |paths|
    ensures ResetSkeletonOf(paths[..k + 1]) == ResetPath(ResetSkeletonOf(paths[..k]), Parent(paths[k]))
  {
    assert paths[..k + 1][..k] == paths[..k];
  }

  /** One more header opens its parent path in the corrected skeleton. */
  lemma {:induction false} SkeletonOfNext(paths: seq<seq<string>>, k: nat)
    requires k < |paths|
    ensures SkeletonOf(paths[..k + 1]) == OpenPath(SkeletonOf(paths[..k]), Parent(paths[k]))
  {
    assert paths[..k + 1][..k] == paths[..k];
  }

  /** Every header's parent path is a chain of dicts in the corrected
      skeleton. */
  lemma {:induction false} SkeletonHasAll(paths: seq<seq<string>>, i: nat)
    requires i < |paths|
    ensures HasDicts(SkeletonOf(paths), Parent(paths[i]))
    decreases |paths|
  {
    var prev := paths[..|paths| - 1];
    if i == |paths| - 1 {
      OpenPathHas(SkeletonOf(prev), Parent(paths[i]));
    } else {
      SkeletonHasAll(prev, i);
      OpenPathKeeps(SkeletonOf(prev), Parent(paths[|paths| - 1]), Parent(paths[i]));
    }
  }

  /** The corrected walk adds at most the first key of the opened path. */
  lemma {:induction false} OpenPathKeys(d: Dict, keys: seq<string>)
    ensures OpenPath(d, keys).Keys == d.Keys + (if |keys| > 0 then {keys[0]} else {})
  {
  }

  /** Every top-level key of the corrected skeleton is the first key of some
      header's parent path. */
  lemma {:induction false} SkeletonHeads(paths: seq<seq<string>>, k: string)
    requires k in SkeletonOf(paths)
    ensures exists i :: 0 <= i < |paths| && |Parent(paths[i])| > 0 && Parent(paths[i])[0] == k
    decreases |paths|
  {
    var prev := paths[..|paths| - 1];
    var last := Parent(paths[|paths| - 1]);
    OpenPathKeys(SkeletonOf(prev), last);
    if k in SkeletonOf(prev) {
      SkeletonHeads(prev, k);
      var i :| 0 <= i < |prev| && |Parent(prev[i])| > 0 && Parent(prev[i])[0] == k;
      assert prev[i] == paths[i];
    }
  }

  /** No two headers' parent paths start with the same key. */
  predicate DistinctHeads(paths: seq<seq<string>>) {
    forall i, j :: 0 <= i < j < |paths| && |Parent(paths[i])| > 0 && |Parent(paths[j])| > 0
      ==> Parent(paths[i])[0] != Parent(paths[j])[0]
  }

  /** When no two headers' parent paths share a first key, the walk as
      written builds the corrected skeleton. */
  lemma {:induction false} WalksAgree(paths: seq<seq<string>>)
    requires DistinctHeads(paths)
    ensures ResetSkeletonOf(paths) == SkeletonOf(paths)
    decreases |paths|
  {
    if |paths| > 0 {
      var n := |paths| - 1;
      var prev := paths[..n];
      var last := Parent(paths[n]);
      assert DistinctHeads(prev) by {
        forall i, j | 0 <= i < j < |prev| && |Parent(prev[i])| > 0 && |Parent(prev[j])| > 0
          ensures Parent(prev[i])[0] != Parent(prev[j])[0]
        {
          assert prev[i] == paths[i] && prev[j] == paths[j];
        }
      }
      WalksAgree(prev);
      if |last| > 0 {
        if last[0] in SkeletonOf(prev) {
          SkeletonHeads(prev, last[0]);
          assert false;
        }
        ResetAgrees(SkeletonOf(prev), last);
      }
    }
  }

  /** `sample_example`, built by the walk as written. */
  function Skeleton(header: seq<string>, cols: nat): Dict {
    ResetSkeletonOf(HeaderPaths(Tail(header, cols + 1)))
  }

  /** `sample_example` as intended, built by the corrected walk. */
  function IntendedSkeleton(header: seq<string>, cols: nat): Dict {
    SkeletonOf(HeaderPaths(Tail(header, cols + 1)))
  }

  /** Lines 46-60: `index_to_keys` and `sample_example`. */
  method ReadHeader(header: seq<string>, cols: nat) returns (index: seq<seq<string>>, skeleton: Dict)
    ensures index == Index(header, cols)
    ensures skeleton == Skeleton(header, cols)
  {
    var start := [["identifier"]] + seq(cols, _ => []);
    index := start;
    skeleton := map[];
    var headers := Tail(header, cols + 1);
    ghost var paths := HeaderPaths(headers);
    var j := 0;
    while j < |headers|
      invariant j <= |headers|
      invariant index == start + paths[..j]
      invariant skeleton == ResetSkeletonOf(paths[..j])
    {
      var keys := KeyPath(headers[j]);
      var k := j;
      j := j + 1;
      index, skeleton := AddHeader(paths, start, k, j, keys, index, skeleton);
    }
    assert paths[..|headers|] == paths;
  }

  /** Lines 55-60 for the header in column `k`, whose key path is `keys`:
      the path is recorded and its parent path reset in the skeleton,
      which takes the index and the skeleton from the first `k` headers to
      the first `n`. */
  method AddHeader(ghost paths: seq<seq<string>>, ghost start: seq<seq<string>>, k: nat, n: nat, keys: seq<string>,
                   index: seq<seq<string>>, skeleton: Dict)
    returns (index': seq<seq<string>>, skeleton': Dict)
    requires n == k + 1 && n <= |paths| && paths[k] == keys
    requires index == start + paths[..k] && skeleton == ResetSkeletonOf(paths[..k])
    ensures index' == start + paths[..n]
    ensures skeleton' == ResetSkeletonOf(paths[..n])
  {
    index' := index + [keys];
    skeleton' := ResetPath(skeleton, Parent(keys));
    ResetSkeletonOfNext(paths, k);
    assert paths[..k] + [paths[k]] == paths[..n];
  }

  // ---------------------------------------------------------------------------
  // Rows (lines 64-76)
  // ---------------------------------------------------------------------------

  /** Lines 72-75: an int when `int(v)` succeeds, the raw text otherwise. */
  function CellValue(v: string): Value {
    match ParseInt(v)
    case Some(n) => Int(n)
    case None => Str(v)
  }

  /** An integer cell reads back as its value. */
  lemma {:induction false} CellInt(n: int)
    ensures CellValue(IntToString(n)) == Int(n)
  {
    ParseIntToString(n);
  }

  /** The empty cell stays text. */
  lemma {:induction false} CellEmpty()
    ensures CellValue("") == Str("")
  {
    assert Strip("") == "";
  }

  /** "None" stays text. */
  lemma {:induction false} CellNone()
    ensures CellValue("None") == Str("None")
  {
    ParseNotNumber("None");
  }

  /** A cell is never a dict. */
  lemma {:induction false} CellNotDict(v: string)
    ensures !CellValue(v).Obj?
  {
  }

  /** Lines 68-76 for one cell value: columns with the empty path are
      ignored. */
  function Store(sample: Dict, keys: seq<string>, v: Value): Result<Dict> {
    if |keys| == 0 then Ok(sample) else SetPath(sample, keys, v)
  }

  /** The values of a row's cells. */
  function Values(row: seq<string>): (vs: seq<Value>)
    ensures |vs| == |row| && forall i :: 0 <= i < |row| ==> vs[i] == CellValue(row[i])
  {
    seq(|row|, i requires 0 <= i < |row| => CellValue(row[i]))
  }

  /** The sample after the first `n` cell values. A cell past the end of
      `index_to_keys` raises IndexError. */
  function CellsUpTo(start: Dict, index: seq<seq<string>>, vs: seq<Value>, n: nat): Result<Dict>
    requires n <= |vs|
    decreases n
  {
    if n == 0 then Ok(start)
    else
      var s :- CellsUpTo(start, index, vs, n - 1);
      if n - 1 >= |index| then Err("IndexError") else Store(s, index[n - 1], vs[n - 1])
  }

  /** Lines 66-76: the sample a row fills in. */
  function Row(start: Dict, index: seq<seq<string>>, row: seq<string>): Result<Dict> {
    CellsUpTo(start, index, Values(row), |row|)
  }

  /** A later cell leaves a stored value alone unless it writes a prefix
      of its path. */
  lemma {:induction false} StoreKeeps(prev: Dict, keys: seq<string>, v: Value, p: seq<string>)
    requires |p| > 0 && Store(prev, keys, v).Ok?
    requires Lookup(prev, p).Some? && !Lookup(prev, p).value.Obj?
    requires |keys| > 0 ==> !IsPrefix(keys, p)
    ensures Lookup(Store(prev, keys, v).value, p) == Lookup(prev, p)
  {
    if |keys| > 0 {
      DivergeOrPrefix(keys, p);
      if Diverge(keys, p) {
        SetPathOthers(prev, keys, v, p);
      } else {
        SetPathThroughValue(prev, p, keys, v);
      }
    }
  }

  lemma {:induction false} ValueLands(start: Dict, index: seq<seq<string>>, vs: seq<Value>, j: nat, n: nat)
    requires j < n <= |vs| && j < |index| && |index[j]| > 0 && !vs[j].Obj?
    requires CellsUpTo(start, index, vs, n).Ok?
    requires forall k :: j < k < n && k < |index| && |index[k]| > 0 ==> !IsPrefix(index[k], index[j])
    ensures Lookup(CellsUpTo(start, index, vs, n).value, index[j]) == Some(vs[j])
    decreases n
  {
    var prev := CellsUpTo(start, index, vs, n - 1).value;
    if n - 1 == j {
      SetPathLands(prev, index[j], vs[j]);
    } else {
      ValueLands(start, index, vs, j, n - 1);
      StoreKeeps(prev, index[n - 1], vs[n - 1], index[j]);
    }
  }

  /** Lines 67-76: each value lands at exactly its key path, unless a later
      cell writes a prefix of that path. */
  lemma {:induction false} CellLands(start: Dict, index: seq<seq<string>>, row: seq<string>, j: nat)
    requires j < |row| && j < |index| && |index[j]| > 0
    requires Row(start, index, row).Ok?
    requires forall k :: j < k < |row| && k < |index| && |index[k]| > 0 ==> !IsPrefix(index[k], index[j])
    ensures Lookup(Row(start, index, row).value, index[j]) == Some(CellValue(row[j]))
  {
    CellNotDict(row[j]);
    ValueLands(start, index, Values(row), j, |row|);
  }

  /** A row fits its skeleton: it has no more cells than columns, and no
      stored path is a prefix of another column's parent path. */
  predicate Fits(start: Dict, index: seq<seq<string>>, n: nat) {
    n <= |index| &&
    (forall m :: 0 <= m < |index| ==> HasDicts(start, Parent(index[m]))) &&
    PrefixFree(index)
  }

  /** No stored path is a prefix of a column's parent path. */
  predicate PrefixFree(index: seq<seq<string>>) {
    forall k, m :: 0 <= k < |index| && 0 <= m < |index| && |index[k]| > 0 ==> !IsPrefix(index[k], Parent(index[m]))
  }

  lemma {:induction false} FitsFills(start: Dict, index: seq<seq<string>>, vs: seq<Value>, n: nat)
    requires n <= |vs| && Fits(start, index, |vs|)
    ensures CellsUpTo(start, index, vs, n).Ok?
    ensures forall m :: 0 <= m < |index| ==> HasDicts(CellsUpTo(start, index, vs, n).value, Parent(index[m]))
    decreases n
  {
    if n > 0 {
      FitsFills(start, index, vs, n - 1);
      var prev := CellsUpTo(start, index, vs, n - 1).value;
      var keys := index[n - 1];
      if |keys| > 0 {
        SetPathFits(prev, keys, vs[n - 1]);
        forall m | 0 <= m < |index|
          ensures HasDicts(CellsUpTo(start, index, vs, n).value, Parent(index[m]))
        {
          SetPathKeepsDicts(prev, keys, vs[n - 1], Parent(index[m]));
        }
      }
    }
  }

  /** A row that fits fills in without an exception. */
  lemma {:induction false} RowFits(start: Dict, index: seq<seq<string>>, row: seq<string>)
    requires Fits(start, index, |row|)
    ensures Row(start, index, row).Ok?
  {
    FitsFills(start, index, Values(row), |row|);
  }

  /** On the corrected skeleton, every row no longer than the index fills
      without an exception, provided no stored path is a prefix of another
      column's parent path. */
  lemma {:induction false} IntendedRowFits(header: seq<string>, cols: nat, row: seq<string>)
    requires |row| <= |Index(header, cols)| && PrefixFree(Index(header, cols))
    ensures Row(IntendedSkeleton(header, cols), Index(header, cols), row).Ok?
  {
    var index := Index(header, cols);
    var paths := HeaderPaths(Tail(header, cols + 1));
    forall m | 0 <= m < |index|
      ensures HasDicts(IntendedSkeleton(header, cols), Parent(index[m]))
    {
      if m <= cols {
        assert |index[m]| <= 1;
      } else {
        assert index[m] == paths[m - cols - 1];
        SkeletonHasAll(paths, m - cols - 1);
      }
    }
    RowFits(IntendedSkeleton(header, cols), index, row);
  }

  /** An exception ends the row. */
  lemma {:induction false} CellsErr(start: Dict, index: seq<seq<string>>, vs: seq<Value>, n: nat, m: nat)
    requires n <= m <= |vs| && CellsUpTo(start, index, vs, n).Err?
    ensures CellsUpTo(start, index, vs, m) == CellsUpTo(start, index, vs, n)
    decreases m
  {
    if m > n {
      CellsErr(start, index, vs, n, m - 1);
    }
  }

  /** Lines 68-76 for one cell. */
  method StoreCell(sample: Dict, keys: seq<string>, value: Value) returns (r: Result<Dict>)
    ensures r == Store(sample, keys, value)
  {
    if |keys| == 0 {
      return Ok(sample);
    }
    r := SetPath(sample, keys, value);
  }

  /** Lines 65-76 for one row: walk the cells, storing each. */
  method FillRow(start: Dict, index: seq<seq<string>>, row: seq<string>) returns (r: Result<Dict>)
    ensures r == Row(start, index, row)
  {
    r := FillValues(start, index, Values(row));
  }

  /** The cell loop on the converted values. */
  method FillValues(start: Dict, index: seq<seq<string>>, vs: seq<Value>) returns (r: Result<Dict>)
    ensures r == CellsUpTo(start, index, vs, |vs|)
  {
    var sample := start;
    for i := 0 to |vs|
      invariant CellsUpTo(start, index, vs, i) == Ok(sample)
    {
      if i >= |index| {
        CellsErr(start, index, vs, i + 1, |vs|);
        return Err("IndexError");
      }
      var next := StoreCell(sample, index[i], vs[i]);
      if next.Err? {
        CellsErr(start, index, vs, i + 1, |vs|);
        return Err(next.message);
      }
      sample := next.value;
    }
    return Ok(sample);
  }

  // ---------------------------------------------------------------------------
  // Null-filling (lines 78-83)
  // ---------------------------------------------------------------------------

  /** A dict of features with every listed feature present: the missing ones
      as null. */
  function Completed(fields: map<string, Value>, features: set<string>): map<string, Value> {
    map f | f in fields.Keys + features :: if f in fields then fields[f] else Null
  }

  /** The property names of each schema definition. */
  type Features = map<string, set<string>>

  /** Some top-level dict has no schema definition: the lookup raises
      KeyError. */
  predicate Undefined(sample: Dict, defs: Features) {
    exists k :: k in sample && sample[k].Obj? && k !in defs
  }

  /** A top-level entry after the fill: a dict with a definition is
      completed, anything else is left alone. */
  function Filled(v: Value, defs: Features, k: string): Value {
    if v.Obj? && k in defs then Obj(Completed(v.fields, defs[k])) else v
  }

  /** Lines 79-83. */
  function NullFill(sample: Dict, defs: Features): Result<Dict> {
    if Undefined(sample, defs) then Err("KeyError")
    else Ok(map k | k in sample :: Filled(sample[k], defs, k))
  }

  /** Every schema feature of a present instrument is present afterwards;
      values already present are not overwritten, new ones are null, and
      top-level entries that are not dicts stay as they are. */
  lemma {:induction false} NullFillSpec(sample: Dict, defs: Features, k: string)
    requires NullFill(sample, defs).Ok? && k in sample
    ensures k in NullFill(sample, defs).value
    ensures var r := NullFill(sample, defs).value[k];
            if sample[k].Obj? then
              r.Obj? && r.fields.Keys == sample[k].fields.Keys + defs[k] &&
              (forall f :: f in sample[k].fields ==> r.fields[f] == sample[k].fields[f]) &&
              (forall f :: f in defs[k] && f !in sample[k].fields ==> r.fields[f] == Null)
            else r == sample[k]
  {
  }

  lemma {:induction false} NullFillKeys(sample: Dict, defs: Features)
    ensures NullFill(sample, defs).Err? <==> Undefined(sample, defs)
    ensures NullFill(sample, defs).Ok? ==> NullFill(sample, defs).value.Keys == sample.Keys
  {
  }

  /** Lines 81-83 for one instrument: add every missing feature as None. */
  method FillFeatures(fields: map<string, Value>, features: set<string>) returns (r: map<string, Value>)
    ensures r == Completed(fields, features)
  {
    r := fields;
    var todo := features;
    ghost var done: set<string> := {};
    while todo != {}
      invariant todo + done == features && todo !! done
      invariant r == Completed(fields, done)
      decreases todo
    {
      var feature :| feature in todo;
      if feature !in r {
        r := r[feature := Null];
      }
      todo := todo - {feature};
      done := done + {feature};
    }
  }

  /** Lines 79-83: the loop over the sample's top-level keys. */
  method NullFillSample(sample: Dict, defs: Features) returns (r: Result<Dict>)
    ensures r == NullFill(sample, defs)
  {
    var filled := sample;
    var todo := sample.Keys;
    ghost var done: set<string> := {};
    while todo != {}
      invariant todo + done == sample.Keys && todo !! done
      invariant filled.Keys == sample.Keys
      invariant forall k :: k in done && sample[k].Obj? ==> k in defs
      invariant forall k :: k in done ==> filled[k] == Filled(sample[k], defs, k)
      invariant forall k :: k in todo ==> filled[k] == sample[k]
      decreases todo
    {
      var key :| key in todo;
      if filled[key].Obj? {
        if key !in defs {
          return Err("KeyError");
        }
        var fields := FillFeatures(filled[key].fields, defs[key]);
        filled := filled[key := Obj(fields)];
      }
      todo := todo - {key};
      done := done + {key};
    }
    assert filled == map k | k in sample :: Filled(sample[k], defs, k);
    r := Ok(filled);
  }

  // ---------------------------------------------------------------------------
  // The converter (lines 43-90)
  // ---------------------------------------------------------------------------

  /** One output sample: the row on a copy of the skeleton, then null-filled. */
  function RowSample(skeleton: Dict, index: seq<seq<string>>, defs: Features, row: seq<string>): Result<Dict> {
    var s :- Row(skeleton, index, row);
    NullFill(s, defs)
  }

  function RowSamples(skeleton: Dict, index: seq<seq<string>>, defs: Features, rows: seq<seq<string>>): (rs: seq<Result<Dict>>)
    ensures |rs| == |rows|
  {
    seq(|rows|, j requires 0 <= j < |rows| => RowSample(skeleton, index, defs, rows[j]))
  }

  /** Entry `j` is the outcome of row `j`. */
  lemma {:induction false} RowSamplesAt(skeleton: Dict, index: seq<seq<string>>, defs: Features, rows: seq<seq<string>>, j: nat)
    requires j < |rows|
    ensures RowSamples(skeleton, index, defs, rows)[j] == RowSample(skeleton, index, defs, rows[j])
  {
  }

  /** The samples of the first `n` rows, stopping at the first exception. */
  function Collect(results: seq<Result<Dict>>, n: nat): Result<seq<Dict>>
    requires n <= |results|
    decreases n
  {
    if n == 0 then Ok([])
    else
      var done :- Collect(results, n - 1);
      var s :- results[n - 1];
      Ok(done + [s])
  }

  lemma {:induction false} CollectOk(results: seq<Result<Dict>>, n: nat)
    requires n <= |results|
    ensures Collect(results, n).Ok? <==> forall j :: 0 <= j < n ==> results[j].Ok?
    decreases n
  {
    if n > 0 {
      CollectOk(results, n - 1);
    }
  }

  lemma {:induction false} CollectValues(results: seq<Result<Dict>>, n: nat)
    requires n <= |results| && Collect(results, n).Ok?
    ensures |Collect(results, n).value| == n
    ensures forall j :: 0 <= j < n ==> results[j] == Ok(Collect(results, n).value[j])
    decreases n
  {
    if n > 0 {
      CollectValues(results, n - 1);
    }
  }

  /** One more row extends the samples, or ends the run with its exception. */
  lemma {:induction false} CollectStep(results: seq<Result<Dict>>, n: nat)
    requires n < |results| && Collect(results, n).Ok?
    ensures Collect(results, n + 1) == if results[n].Ok? then Ok(Collect(results, n).value + [results[n].value]) else Err(results[n].message)
  {
  }

  /** An exception ends the run. */
  lemma {:induction false} CollectErr(results: seq<Result<Dict>>, n: nat, m: nat)
    requires n <= m <= |results| && Collect(results, n).Err?
    ensures Collect(results, m) == Collect(results, n)
    decreases m
  {
    if m > n {
      CollectErr(results, n, m - 1);
    }
  }

  /** Lines 64-90: the samples of all rows. */
  function Samples(header: seq<string>, cols: nat, defs: Features, rows: seq<seq<string>>): Result<seq<Dict>> {
    Collect(RowSamples(Skeleton(header, cols), Index(header, cols), defs, rows), |rows|)
  }

  /** Lines 64 and 86: the run succeeds iff every row does, and then there
      is one sample per data row, in row order. */
  lemma {:induction false} SamplesPerRow(header: seq<string>, cols: nat, defs: Features, rows: seq<seq<string>>)
    ensures var skeleton, index := Skeleton(header, cols), Index(header, cols);
      Samples(header, cols, defs, rows).Ok? <==> forall j :: 0 <= j < |rows| ==> RowSample(skeleton, index, defs, rows[j]).Ok?
    ensures var skeleton, index := Skeleton(header, cols), Index(header, cols);
      Samples(header, cols, defs, rows).Ok? ==>
        |Samples(header, cols, defs, rows).value| == |rows| &&
        forall j :: 0 <= j < |rows| ==> RowSample(skeleton, index, defs, rows[j]) == Ok(Samples(header, cols, defs, rows).value[j])
  {
    var skeleton, index := Skeleton(header, cols), Index(header, cols);
    var rs := RowSamples(skeleton, index, defs, rows);
    forall j | 0 <= j < |rows|
      ensures rs[j] == RowSample(skeleton, index, defs, rows[j])
    {
      RowSamplesAt(skeleton, index, defs, rows, j);
    }
    CollectOk(rs, |rows|);
    if Collect(rs, |rows|).Ok? {
      CollectValues(rs, |rows|);
    }
  }

  /** Lines 65-86 for one row. */
  method ConvertRow(defs: Features, skeleton: Dict, index: seq<seq<string>>, row: seq<string>) returns (r: Result<Dict>)
    ensures r == RowSample(skeleton, index, defs, row)
  {
    var sample := FillRow(skeleton, index, row);
    if sample.Err? {
      return Err(sample.message);
    }
    r := NullFillSample(sample.value, defs);
  }

  /** Lines 43-90: read the header, then turn every data row into a sample
      (`copy.deepcopy` of the skeleton is a value copy here). */
  method Convert(header: seq<string>, rows: seq<seq<string>>, cols: nat, defs: Features) returns (r: Result<seq<Dict>>)
    ensures r == Samples(header, cols, defs, rows)
  {
    var index, skeleton := ReadHeader(header, cols);
    r := ConvertRows(defs, skeleton, index, rows);
  }

  /** Lines 64-90: the loop over the data rows. */
  method ConvertRows(defs: Features, skeleton: Dict, index: seq<seq<string>>, rows: seq<seq<string>>)
    returns (r: Result<seq<Dict>>)
    ensures r == Collect(RowSamples(skeleton, index, defs, rows), |rows|)
  {
    ghost var rs := RowSamples(skeleton, index, defs, rows);
    r := Ok([]);
    var j := 0;
    while j < |rows| && r.Ok?
      invariant j <= |rows| && r == Collect(rs, j)
    {
      var sample := ConvertRow(defs, skeleton, index, rows[j]);
      RowSamplesAt(skeleton, index, defs, rows, j);
      var k := j;
      j := j + 1;
      r := Append(rs, k, j, r.value, sample);
    }
    if r.Err? {
      CollectErr(rs, j, |rows|);
    }
  }

  /** Lines 86-90 for row `k`: its sample is appended to those of the rows
      before it, or its exception ends the run; the loop has then converted
      `n` rows. */
  method Append(ghost rs: seq<Result<Dict>>, k: nat, n: nat, samples: seq<Dict>, sample: Result<Dict>)
    returns (r: Result<seq<Dict>>)
    requires n == k + 1 && n <= |rs| && rs[k] == sample && Collect(rs, k) == Ok(samples)
    ensures r == Collect(rs, n)
  {
    CollectStep(rs, k);
    if sample.Err? {
      return Err(sample.message);
    }
    return Ok(samples + [sample.value]);
  }


  // ---------------------------------------------------------------------------
  // The reset of shared prefixes (lines 58-60)
  // ---------------------------------------------------------------------------

  /** With the headers `A:B:x` then `A:y`, the walk as written leaves
      `{"A": {}}`: the second header's `entry_place["A"] = {}` drops the
      dict for `B`, so storing the first column raises KeyError. The
      intended walk keeps `B` and the cell is stored. */
  lemma {:induction false} ResetLosesSibling()
    ensures ResetSkeletonOf([["A", "B", "x"], ["A", "y"]]) == map["A" := Obj(map[])]
    ensures SetPath(ResetSkeletonOf([["A", "B", "x"], ["A", "y"]]), ["A", "B", "x"], Int(1)) == Err("KeyError")
    ensures SetPath(SkeletonOf([["A", "B", "x"], ["A", "y"]]), ["A", "B", "x"], Int(1)).Ok?
  {
    var paths := [["A", "B", "x"], ["A", "y"]];
    assert paths[..1] == [["A", "B", "x"]];
    assert Parent(paths[0]) == ["A", "B"] && Parent(paths[1]) == ["A"];
    SkeletonHasAll(paths, 0);
    SetPathFits(SkeletonOf(paths), ["A", "B", "x"], Int(1));
  }
}
