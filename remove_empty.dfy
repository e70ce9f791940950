/** The pruning pass over the aggregated samples: instrument blocks with no
    answered item are deleted, then samples left with no instrument are
    deleted. */
module RemoveEmpty {
  import opened Json
  import opened Strings
  import opened Subsequences

  const HISTORY := "Medical History"

  /** Line 16: the keys starting with 'Q' that hold a non-null value. */
  function AnsweredItems(d: Dict): set<string> {
    set k | k in d && StartsWith(k, "Q") && d[k] != Null
  }

  /** Line 17: the block has no answered item. */
  predicate EmptyBlock(d: Dict) {
    AnsweredItems(d) == {}
  }

  /** Lines 14-17: the field holds a dict with no answered item. */
  predicate EmptyInstrument(v: Value) {
    v.Obj? && EmptyBlock(v.fields)
  }

  /** `key` names an empty instrument of sample `s`. */
  predicate EmptyAt(s: Dict, key: string) {
    key in s && EmptyInstrument(s[key])
  }

  /** The sample with its empty instruments deleted (lines 11-24). */
  function Prune(s: Dict): Dict {
    map k | k in s && !EmptyInstrument(s[k]) :: s[k]
  }

  function PruneAll(samples: seq<Dict>): (r: seq<Dict>)
    ensures |r| == |samples|
    ensures forall i :: 0 <= i < |samples| ==> r[i] == Prune(samples[i])
  {
    seq(|samples|, i requires 0 <= i < |samples| => Prune(samples[i]))
  }

  /** Line 29: the dict-valued fields other than Medical History. */
  function Instruments(s: Dict): set<string> {
    set k | k in s && s[k].Obj? && k != HISTORY
  }

  /** Line 30: the sample still holds an instrument. */
  predicate HasInstrument(s: Dict) {
    Instruments(s) != {}
  }

  /** Lines 27-35 as a filter: the samples that still hold an instrument,
      in order. */
  function KeepNonEmpty(samples: seq<Dict>): seq<Dict>
    decreases |samples|
  {
    if |samples| == 0 then []
    else
      var head := if HasInstrument(samples[0]) then [samples[0]] else [];
      head + KeepNonEmpty(samples[1..])
  }

  /** The whole pass. */
  function Pruned(samples: seq<Dict>): seq<Dict> {
    KeepNonEmpty(PruneAll(samples))
  }

  // ---------------------------------------------------------------------
  // Properties of the pass

  /** A field survives pruning exactly when it is not an empty
      instrument, and then with its value unchanged. */
  lemma {:induction false} PruneFields(s: Dict, k: string)
    ensures k in Prune(s) <==> k in s && !EmptyInstrument(s[k])
    ensures k in Prune(s) ==> Prune(s)[k] == s[k]
  {
  }

  /** Non-dict fields are never altered. */
  lemma {:induction false} PruneKeepsNonDicts(s: Dict, k: string)
    requires k in s && !s[k].Obj?
    ensures k in Prune(s) && Prune(s)[k] == s[k]
  {
  }

  /** A block none of whose keys starts with 'Q' is always deleted, however
      its fields are filled: Medical History is such a block. */
  lemma {:induction false} NoItemsIsEmpty(s: Dict, k: string)
    requires k in s && s[k].Obj?
    requires forall q :: q in s[k].fields ==> !StartsWith(q, "Q")
    ensures k !in Prune(s)
  {
  }

  /** A block with one answered item survives. */
  lemma {:induction false} AnsweredSurvives(s: Dict, k: string, q: string)
    requires k in s && s[k].Obj? && q in s[k].fields
    requires StartsWith(q, "Q") && s[k].fields[q] != Null
    ensures k in Prune(s) && Prune(s)[k] == s[k]
  {
    assert q in AnsweredItems(s[k].fields);
  }

  /** Pruning twice prunes nothing more. */
  lemma {:induction false} PruneIdempotent(s: Dict)
    ensures Prune(Prune(s)) == Prune(s)
  {
  }

  /** A sample is kept, unmodified, exactly when it still holds an
      instrument. */
  lemma {:induction false} KeepNonEmptyMembers(samples: seq<Dict>, x: Dict)
    ensures x in KeepNonEmpty(samples) <==> x in samples && HasInstrument(x)
    decreases |samples|
  {
    if |samples| > 0 {
      KeepNonEmptyMembers(samples[1..], x);
      assert samples == [samples[0]] + samples[1..];
    }
  }

  /** Survivors keep their relative order. */
  lemma {:induction false} KeepNonEmptyOrder(samples: seq<Dict>)
    ensures IsSubsequence(KeepNonEmpty(samples), samples)
    decreases |samples|
  {
    if |samples| > 0 {
      KeepNonEmptyOrder(samples[1..]);
      if HasInstrument(samples[0]) {
        assert KeepNonEmpty(samples)[1..] == KeepNonEmpty(samples[1..]);
      } else {
        assert KeepNonEmpty(samples) == KeepNonEmpty(samples[1..]);
        SkipFirst(KeepNonEmpty(samples[1..]), samples);
      }
    }
  }

  /** Every surviving sample holds an answered instrument other than
      Medical History. */
  lemma {:induction false} PrunedSurvivors(samples: seq<Dict>, x: Dict)
    requires x in Pruned(samples)
    ensures exists k :: k in x && x[k].Obj? && k != HISTORY && !EmptyBlock(x[k].fields)
  {
    KeepNonEmptyMembers(PruneAll(samples), x);
    var i :| 0 <= i < |samples| && PruneAll(samples)[i] == x;
    var k :| k in x && x[k].Obj? && k != HISTORY;
    PruneFields(samples[i], k);
  }

  lemma {:induction false} KeepNonEmptyOfPruned(samples: seq<Dict>)
    requires forall i :: 0 <= i < |samples| ==> Prune(samples[i]) == samples[i]
    ensures KeepNonEmpty(samples) == PruneAll(KeepNonEmpty(samples))
    decreases |samples|
  {
    if |samples| > 0 {
      KeepNonEmptyOfPruned(samples[1..]);
    }
  }

  /** Running the pass on its own output changes nothing. */
  lemma {:induction false} PrunedIdempotent(samples: seq<Dict>)
    ensures Pruned(Pruned(samples)) == Pruned(samples)
  {
    var p := PruneAll(samples);
    forall i | 0 <= i < |p| ensures Prune(p[i]) == p[i] {
      PruneIdempotent(samples[i]);
    }
    KeepNonEmptyOfPruned(p);
    KeepNonEmptyTwice(p);
  }

  lemma {:induction false} KeepNonEmptyTwice(samples: seq<Dict>)
    ensures KeepNonEmpty(KeepNonEmpty(samples)) == KeepNonEmpty(samples)
    decreases |samples|
  {
    if |samples| > 0 {
      KeepNonEmptyTwice(samples[1..]);
      var kept := KeepNonEmpty(samples);
      if HasInstrument(samples[0]) {
        assert kept[0] == samples[0] && kept[1..] == KeepNonEmpty(samples[1..]);
      } else {
        assert kept == KeepNonEmpty(samples[1..]);
      }
    }
  }

  // ---------------------------------------------------------------------
  // The index lists the script builds

  /** What `to_be_removed[key]` holds: a defaultdict reads as [] for a key
      it has not seen. */
  function Listed(m: map<string, seq<nat>>, key: string): seq<nat> {
    if key in m then m[key] else []
  }

  /** The positions below `n` where `key` names an empty instrument, in
      sample order. */
  function EmptyIndices(samples: seq<Dict>, key: string, n: nat): seq<nat>
    requires n <= |samples|
  {
    if n == 0 then []
    else EmptyIndices(samples, key, n - 1) + (if EmptyAt(samples[n - 1], key) then [n - 1] else [])
  }

  predicate Increasing(xs: seq<nat>) {
    forall a, b :: 0 <= a < b < |xs| ==> xs[a] < xs[b]
  }

  /** The first pass lists, for each key, each sample where it is empty,
      once and in order. */
  lemma {:induction false} EmptyIndicesSpec(samples: seq<Dict>, key: string, n: nat)
    requires n <= |samples|
    ensures Increasing(EmptyIndices(samples, key, n))
    ensures forall j: nat :: j in EmptyIndices(samples, key, n) <==> j < n && EmptyAt(samples[j], key)
  {
    if n > 0 {
      EmptyIndicesSpec(samples, key, n - 1);
      var prev := EmptyIndices(samples, key, n - 1);
      assert forall a :: 0 <= a < |prev| ==> prev[a] < n - 1 by {
        forall a | 0 <= a < |prev| ensures prev[a] < n - 1 {
          assert prev[a] in prev;
        }
      }
    }
  }

  /** Lines 13-18 for sample `i`: position `i` is appended to the list of
      each of its empty instruments, a key getting a list on its first
      append. */
  function AddEmpty(m: map<string, seq<nat>>, sample: Dict, i: nat): map<string, seq<nat>> {
    map k | k in m.Keys + sample.Keys && (k in m || EmptyAt(sample, k))
      :: Listed(m, k) + (if EmptyAt(sample, k) then [i] else [])
  }

  /** `to_be_removed` after the first `n` samples. */
  function EmptyLists(samples: seq<Dict>, n: nat): map<string, seq<nat>>
    requires n <= |samples|
  {
    if n == 0 then map[] else AddEmpty(EmptyLists(samples, n - 1), samples[n - 1], n - 1)
  }

  /** The list of `key` holds exactly its empty positions, and the key is
      present exactly when that list is non-empty. */
  lemma {:induction false} EmptyListsSpec(samples: seq<Dict>, n: nat, key: string)
    requires n <= |samples|
    ensures Listed(EmptyLists(samples, n), key) == EmptyIndices(samples, key, n)
    ensures key in EmptyLists(samples, n) <==> EmptyIndices(samples, key, n) != []
  {
    if n > 0 {
      EmptyListsSpec(samples, n - 1, key);
      var m := EmptyLists(samples, n - 1);
      assert key in AddEmpty(m, samples[n - 1], n - 1) <==> key in m || EmptyAt(samples[n - 1], key);
    }
  }

  lemma {:induction false} AddEmptyNothing(m: map<string, seq<nat>>, i: nat)
    ensures AddEmpty(m, map[], i) == m
  {
    assert AddEmpty(m, map[], i).Keys == m.Keys;
    forall k | k in m ensures AddEmpty(m, map[], i)[k] == m[k] {
    }
  }

  /** One key more of the sample scanned. */
  lemma {:induction false} AddEmptyStep(m: map<string, seq<nat>>, d: Dict, key: string, v: Value, i: nat)
    requires key !in d
    ensures var before := AddEmpty(m, d, i);
      AddEmpty(m, d[key := v], i)
        == if EmptyInstrument(v) then before[key := Listed(before, key) + [i]] else before
  {
    var before := AddEmpty(m, d, i);
    var after := AddEmpty(m, d[key := v], i);
    var expected := if EmptyInstrument(v) then before[key := Listed(before, key) + [i]] else before;
    AddEmptyStepKeys(m, d, key, v, i);
    forall k | k in after ensures after[k] == expected[k] {
      AddEmptyStepAt(m, d, key, v, i, k);
    }
  }

  lemma {:induction false} AddEmptyStepKeys(m: map<string, seq<nat>>, d: Dict, key: string, v: Value, i: nat)
    requires key !in d
    ensures AddEmpty(m, d[key := v], i).Keys
      == AddEmpty(m, d, i).Keys + (if EmptyInstrument(v) then {key} else {})
  {
    forall k | k != key ensures EmptyAt(d[key := v], k) == EmptyAt(d, k) {
    }
  }

  lemma {:induction false} AddEmptyStepAt(m: map<string, seq<nat>>, d: Dict, key: string, v: Value, i: nat, k: string)
    requires key !in d && k in AddEmpty(m, d[key := v], i)
    ensures var before := AddEmpty(m, d, i);
      AddEmpty(m, d[key := v], i)[k]
        == if k == key && EmptyInstrument(v) then Listed(before, key) + [i] else before[k]
  {
    AddEmptyStepKeys(m, d, key, v, i);
    if k == key {
      assert !EmptyAt(d, k);
    } else {
      assert EmptyAt(d[key := v], k) == EmptyAt(d, k);
    }
  }

  /** Every listed deletion names a present key, each sample at most once
      per key: `del samples[j][key]` cannot raise. */
  predicate Deletable(samples: seq<Dict>, m: map<string, seq<nat>>) {
    forall key :: key in m ==>
      Increasing(m[key]) && forall j: nat :: j in m[key] ==> j < |samples| && key in samples[j]
  }

  /** Sample `j` after the deletions `m` lists for it. */
  function Without(d: Dict, m: map<string, seq<nat>>, j: nat): Dict {
    map k | k in d && !(k in m && j in m[k]) :: d[k]
  }

  lemma {:induction false} WithoutStep(d: Dict, m: map<string, seq<nat>>, key: string, xs: seq<nat>, j: nat)
    requires key !in m
    ensures Without(d, m[key := xs], j)
      == if j in xs then Without(d, m, j) - {key} else Without(d, m, j)
  {
  }

  /** The lists the first pass builds delete exactly the empty
      instruments. */
  lemma {:induction false} EmptyListsPrune(samples: seq<Dict>, j: nat)
    requires j < |samples|
    ensures Without(samples[j], EmptyLists(samples, |samples|), j) == Prune(samples[j])
  {
    var m := EmptyLists(samples, |samples|);
    forall k | k in samples[j]
      ensures (k in m && j in m[k]) <==> EmptyInstrument(samples[j][k])
    {
      EmptyListsSpec(samples, |samples|, k);
      EmptyIndicesSpec(samples, k, |samples|);
    }
  }

  lemma {:induction false} EmptyListsDeletable(samples: seq<Dict>)
    ensures Deletable(samples, EmptyLists(samples, |samples|))
  {
    var m := EmptyLists(samples, |samples|);
    forall key | key in m
      ensures Increasing(m[key]) && forall j: nat :: j in m[key] ==> j < |samples| && key in samples[j]
    {
      EmptyListsSpec(samples, |samples|, key);
      EmptyIndicesSpec(samples, key, |samples|);
    }
  }

  /** The positions an index list names. */
  function Positions(xs: seq<nat>): set<nat> {
    set x | x in xs
  }

  /** The samples whose positions are not in `drop`, `off` being the
      position of `s[0]`. */
  function KeepAt(s: seq<Dict>, drop: set<nat>, off: nat): seq<Dict>
    decreases |s|
  {
    if |s| == 0 then []
    else
      var head := if off in drop then [] else [s[0]];
      head + KeepAt(s[1..], drop, off + 1)
  }

  lemma {:induction false} KeepAtSplit(a: seq<Dict>, b: seq<Dict>, drop: set<nat>, off: nat)
    ensures KeepAt(a + b, drop, off) == KeepAt(a, drop, off) + KeepAt(b, drop, off + |a|)
    decreases |a|
  {
    if |a| > 0 {
      assert (a + b)[1..] == a[1..] + b;
      KeepAtSplit(a[1..], b, drop, off + 1);
    } else {
      assert a + b == b;
    }
  }

  lemma {:induction false} KeepAtNone(a: seq<Dict>, drop: set<nat>, off: nat)
    requires forall x :: x in drop ==> x < off || off + |a| <= x
    ensures KeepAt(a, drop, off) == a
    decreases |a|
  {
    if |a| > 0 {
      KeepAtNone(a[1..], drop, off + 1);
    }
  }

  /** Dropping exactly the positions without an instrument is the
      filter. */
  lemma {:induction false} KeepAtFilter(s: seq<Dict>, drop: set<nat>, off: nat)
    requires forall j :: 0 <= j < |s| ==> (off + j in drop <==> !HasInstrument(s[j]))
    ensures KeepAt(s, drop, off) == KeepNonEmpty(s)
    decreases |s|
  {
    if |s| > 0 {
      assert off + 0 in drop <==> !HasInstrument(s[0]);
      var tail := s[1..];
      forall j | 0 <= j < |tail| ensures off + 1 + j in drop <==> !HasInstrument(tail[j]) {
        assert tail[j] == s[j + 1] && off + 1 + j == off + (j + 1);
      }
      KeepAtFilter(tail, drop, off + 1);
    }
  }

  /** One deletion of the back-to-front loop: with every position after
      `index` and before `t` kept, deleting `index` extends the processed
      suffix down to `index`. */
  lemma {:induction false} DropOne(orig: seq<Dict>, drop: set<nat>, index: nat, t: nat)
    requires index < t <= |orig| && index in drop
    requires forall x :: x in drop ==> x <= index || t <= x
    ensures var cur := orig[..t] + KeepAt(orig[t..], drop, t);
      cur[..index] + cur[index + 1..] == orig[..index] + KeepAt(orig[index..], drop, index)
  {
    KeepAtSuffix(orig, drop, index, t);
    SliceAround(orig, KeepAt(orig[t..], drop, t), index, t);
  }

  /** Deleting position `index` of a sequence whose first `t` elements
      are those of `orig`. */
  lemma {:induction false} SliceAround(orig: seq<Dict>, rest: seq<Dict>, index: nat, t: nat)
    requires index < t <= |orig|
    ensures var cur := orig[..t] + rest;
      cur[..index] + cur[index + 1..] == orig[..index] + (orig[index + 1..t] + rest)
  {
    var cur := orig[..t] + rest;
    assert cur[..index] == orig[..index];
    assert cur[index + 1..] == orig[index + 1..t] + rest;
  }

  lemma {:induction false} KeepAtSuffix(orig: seq<Dict>, drop: set<nat>, index: nat, t: nat)
    requires index < t <= |orig| && index in drop
    requires forall x :: x in drop ==> x <= index || t <= x
    ensures KeepAt(orig[index..], drop, index) == orig[index + 1..t] + KeepAt(orig[t..], drop, t)
  {
    var mid := orig[index + 1..t];
    var tail := orig[t..];
    var suffix := orig[index..];
    assert suffix[1..] == mid + tail;
    KeepAtNone(mid, drop, index + 1);
    KeepAtSplit(mid, tail, drop, index + 1);
    KeepAtDropHead(suffix, drop, index);
  }

  lemma {:induction false} KeepAtDropHead(s: seq<Dict>, drop: set<nat>, off: nat)
    requires |s| > 0 && off in drop
    ensures KeepAt(s, drop, off) == KeepAt(s[1..], drop, off + 1)
  {
  }

  /** Dropping the positions the third pass lists is the filter. */
  lemma {:induction false} DropEmptyIsFilter(s: seq<Dict>, drop: set<nat>)
    requires forall j: nat :: j in drop <==> j < |s| && !HasInstrument(s[j])
    ensures KeepAt(s, drop, 0) == KeepNonEmpty(s)
  {
    forall j | 0 <= j < |s| ensures 0 + j in drop <==> !HasInstrument(s[j]) {
      assert 0 + j == j;
    }
    KeepAtFilter(s, drop, 0);
  }

  /** The first two passes together perform `PruneAll`. */
  lemma {:induction false} InstrumentsPruned(orig: seq<Dict>, after: seq<Dict>)
    requires |after| == |orig|
    requires forall j :: 0 <= j < |after| ==> after[j] == Without(orig[j], EmptyLists(orig, |orig|), j)
    ensures after == PruneAll(orig)
  {
    forall j | 0 <= j < |after| ensures after[j] == PruneAll(orig)[j] {
      EmptyListsPrune(orig, j);
    }
  }

  // ---------------------------------------------------------------------
  // The script, step by step, over the sample list it mutates

  class SampleList {
    var samples: seq<Dict>

    constructor (samples: seq<Dict>)
      ensures this.samples == samples
    {
      this.samples := samples;
    }

    /** Lines 13-18 for sample `i`: its empty instruments join the lists. */
    static method ScanSample(toRemove: map<string, seq<nat>>, sample: Dict, i: nat) returns (m: map<string, seq<nat>>)
      ensures m == AddEmpty(toRemove, sample, i)
    {
      var todo := sample.Keys;
      m := toRemove;
      AddEmptyNothing(toRemove, i);
      assert sample - todo == map[];
      while todo != {}
        invariant todo <= sample.Keys
        invariant m == AddEmpty(toRemove, sample - todo, i)
        decreases todo
      {
        var key :| key in todo;
        AddEmptyStep(toRemove, sample - todo, key, sample[key], i);
        assert sample - (todo - {key}) == (sample - todo)[key := sample[key]];
        if EmptyInstrument(sample[key]) {
          m := m[key := Listed(m, key) + [i]];
        }
        todo := todo - {key};
      }
      assert sample - todo == sample;
    }

    /** Lines 11-18: for each key, the samples where it names an empty
        instrument. */
    method FindEmptyInstruments() returns (toRemove: map<string, seq<nat>>)
      ensures toRemove == EmptyLists(samples, |samples|)
    {
      toRemove := map[];
      var list := samples;
      var i := 0;
      while i < |list|
        invariant 0 <= i <= |list|
        invariant toRemove == EmptyLists(list, i)
      {
        toRemove := ScanSample(toRemove, list[i], i);
        i := i + 1;
      }
      assert list == samples;
    }

    /** Lines 22-23 for one instrument. */
    method RemoveInstrument(instrument: string, indices: seq<nat>)
      requires Increasing(indices)
      requires forall j: nat :: j in indices ==> j < |samples| && instrument in samples[j]
      modifies this
      ensures |samples| == |old(samples)|
      ensures forall j :: 0 <= j < |samples| ==>
        samples[j] == if j in indices then old(samples)[j] - {instrument} else old(samples)[j]
    {
      var t := 0;
      while t < |indices|
        invariant 0 <= t <= |indices|
        invariant |samples| == |old(samples)|
        invariant forall j :: 0 <= j < |samples| ==>
          samples[j] == if j in indices[..t] then old(samples)[j] - {instrument} else old(samples)[j]
      {
        var index := indices[t];
        assert index in indices && index !in indices[..t];
        assert samples[index] == old(samples)[index];
        assert instrument in samples[index];
        samples := samples[index := samples[index] - {instrument}];
        assert indices[..t + 1] == indices[..t] + [index];
        t := t + 1;
      }
      assert indices[..t] == indices;
    }

    /** Lines 21-24: every listed deletion, instrument by instrument. */
    method RemoveInstruments(toRemove: map<string, seq<nat>>)
      requires Deletable(samples, toRemove)
      modifies this
      ensures |samples| == |old(samples)|
      ensures forall j :: 0 <= j < |samples| ==> samples[j] == Without(old(samples)[j], toRemove, j)
    {
      var todo := toRemove.Keys;
      while todo != {}
        invariant todo <= toRemove.Keys
        invariant |samples| == |old(samples)|
        invariant forall j :: 0 <= j < |samples| ==> samples[j] == Without(old(samples)[j], toRemove - todo, j)
        decreases todo
      {
        var instrument :| instrument in todo;
        ghost var done := toRemove - todo;
        var indices := toRemove[instrument];
        forall j | j in indices ensures j < |samples| && instrument in samples[j] {
          assert instrument in old(samples)[j] && instrument !in done;
        }
        RemoveInstrument(instrument, indices);
        assert toRemove - (todo - {instrument}) == done[instrument := indices];
        forall j | 0 <= j < |samples|
          ensures samples[j] == Without(old(samples)[j], done[instrument := indices], j)
        {
          WithoutStep(old(samples)[j], done, instrument, indices, j);
        }
        todo := todo - {instrument};
      }
      assert toRemove - todo == toRemove;
    }

    /** Lines 27-31: the positions of the samples left without an
        instrument, in order. */
    method FindEmptySamples() returns (toRemove: seq<nat>)
      ensures Increasing(toRemove)
      ensures forall j: nat :: j in toRemove <==> j < |samples| && !HasInstrument(samples[j])
    {
      toRemove := [];
      var i := 0;
      while i < |samples|
        invariant 0 <= i <= |samples|
        invariant Increasing(toRemove)
        invariant forall j: nat :: j in toRemove <==> j < i && !HasInstrument(samples[j])
      {
        assert forall a :: 0 <= a < |toRemove| ==> toRemove[a] < i by {
          forall a | 0 <= a < |toRemove| ensures toRemove[a] < i {
            assert toRemove[a] in toRemove;
          }
        }
        if !HasInstrument(samples[i]) {
          toRemove := toRemove + [i];
        }
        i := i + 1;
      }
    }

    /** Lines 34-35: deletion from the back, so the positions still to be
        deleted do not move. */
    method RemoveSamples(toRemove: seq<nat>)
      requires Increasing(toRemove)
      requires forall j: nat :: j in toRemove ==> j < |samples|
      modifies this
      ensures samples == KeepAt(old(samples), Positions(toRemove), 0)
    {
      ghost var orig := samples;
      ghost var drop := Positions(toRemove);
      var n := |toRemove|;
      ghost var t := |samples|;
      KeepAtNone([], drop, t);
      while n > 0
        invariant 0 <= n <= |toRemove|
        invariant t <= |orig|
        invariant t == if n == |toRemove| then |orig| else toRemove[n]
        invariant samples == orig[..t] + KeepAt(orig[t..], drop, t)
      {
        var index := toRemove[n - 1];
        assert index in drop;
        forall x | x in drop ensures x <= index || t <= x {
          var a :| 0 <= a < |toRemove| && toRemove[a] == x;
        }
        DropOne(orig, drop, index, t);
        samples := samples[..index] + samples[index + 1..];
        n := n - 1;
        t := index;
      }
      forall x | x in drop ensures t <= x {
        var a :| 0 <= a < |toRemove| && toRemove[a] == x;
      }
      KeepAtNone(orig[..t], drop, 0);
      KeepAtSplit(orig[..t], orig[t..], drop, 0);
      assert orig[..t] + orig[t..] == orig;
    }

    /** Lines 11-24: the empty instruments deleted from every sample. */
    method PruneInstruments()
      modifies this
      ensures samples == PruneAll(old(samples))
    {
      var instruments := FindEmptyInstruments();
      EmptyListsDeletable(samples);
      ghost var orig := samples;
      RemoveInstruments(instruments);
      InstrumentsPruned(orig, samples);
    }

    /** Lines 27-35: the samples left without an instrument deleted. */
    method DropEmptySamples()
      modifies this
      ensures samples == KeepNonEmpty(old(samples))
    {
      var emptySamples := FindEmptySamples();
      ghost var orig := samples;
      RemoveSamples(emptySamples);
      DropEmptyIsFilter(orig, Positions(emptySamples));
    }

    /** The whole script over the loaded samples. */
    method PruneSamples()
      modifies this
      ensures samples == Pruned(old(samples))
    {
      PruneInstruments();
      DropEmptySamples();
    }
  }
}
