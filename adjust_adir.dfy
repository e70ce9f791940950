/** The ADI-R current/ever backfill: for every item pair Qx.1 (behaviour
    occurring now) and Qx.2 (behaviour ever occurring) where only one side
    is answered, the other side takes the same answer. */
module AdjustAdir {
  import opened Wrappers
  import opened Json
  import opened Strings

  /** A schema feature names the current half of a pair. */
  predicate IsCurrent(f: string) {
    StartsWith(f, "Q") && EndsWith(f, ".1")
  }

  /** Line 25: the ever half of a pair replaces the trailing ".1" by ".2". */
  function EverKey(f: string): (e: string)
    requires IsCurrent(f)
    ensures |e| == |f| && e[..|f| - 2] == f[..|f| - 2] && EndsWith(e, ".2")
  {
    f[..|f| - 2] + ".2"
  }

  /** Two different pairs share no key. */
  lemma {:induction false} PairsDisjoint(f: string, g: string)
    requires IsCurrent(f) && IsCurrent(g) && f != g
    ensures EverKey(f) != EverKey(g) && EverKey(f) != g && f != EverKey(g)
  {
    assert f == f[..|f| - 2] + ".1" && g == g[..|g| - 2] + ".1";
    assert EverKey(f)[|f| - 1] == '2' && g[|g| - 1] == '1';
    assert EverKey(g)[|g| - 1] == '2' && f[|f| - 1] == '1';
  }

  /** Both halves answered or both unanswered. */
  predicate Balanced(b: Dict, f: string)
    requires IsCurrent(f)
  {
    f in b && EverKey(f) in b && (b[f] == Null <==> b[EverKey(f)] == Null)
  }

  /** The block after one feature, with the number of current and ever
      fills it made. */
  datatype Fill = Fill(block: Dict, current: nat, ever: nat)

  /** Lines 23-38 for one feature. Reading a missing key raises KeyError. */
  function FillPair(b: Dict, f: string): Result<Fill> {
    if !IsCurrent(f) then Ok(Fill(b, 0, 0))
    else if f !in b || EverKey(f) !in b then Err("KeyError")
    else
      var cur := b[f];
      var ever := b[EverKey(f)];
      if cur == Null && ever != Null then Ok(Fill(b[f := ever], 1, 0))
      else if cur != Null && ever == Null then Ok(Fill(b[EverKey(f) := cur], 0, 1))
      else Ok(Fill(b, 0, 0))
  }

  /** Lines 22-38: every feature in schema order, the counters carried
      along. */
  function BackfillFrom(b: Dict, features: seq<string>, current: nat, ever: nat): Result<Fill>
    decreases |features|
  {
    if |features| == 0 then Ok(Fill(b, current, ever))
    else
      var step :- FillPair(b, features[0]);
      BackfillFrom(step.block, features[1..], current + step.current, ever + step.ever)
  }

  /** One pair: a lone answer is copied to the empty half, the pair ends up
      balanced, the counters say which half was filled, and nothing else
      changes. */
  lemma {:induction false} FillPairSpec(b: Dict, f: string)
    requires IsCurrent(f) && f in b && EverKey(f) in b
    ensures FillPair(b, f).Ok?
    ensures Balanced(FillPair(b, f).value.block, f)
    ensures FillPair(b, f).value.block.Keys == b.Keys
    ensures forall k :: k in b && k != f && k != EverKey(f) ==> FillPair(b, f).value.block[k] == b[k]
    ensures FillPair(b, f).value.current == (if b[f] == Null && b[EverKey(f)] != Null then 1 else 0)
    ensures FillPair(b, f).value.ever == (if b[f] != Null && b[EverKey(f)] == Null then 1 else 0)
    ensures b[f] != Null ==> FillPair(b, f).value.block[f] == b[f]
    ensures b[EverKey(f)] != Null ==> FillPair(b, f).value.block[EverKey(f)] == b[EverKey(f)]
  {
  }

  /** An already balanced pair is left as it is. */
  lemma {:induction false} FillBalanced(b: Dict, f: string)
    requires IsCurrent(f) && Balanced(b, f)
    ensures FillPair(b, f) == Ok(Fill(b, 0, 0))
  {
  }

  /** The fill of one pair keeps every other pair as it was. */
  lemma {:induction false} FillPairKeeps(b: Dict, f: string, g: string)
    requires IsCurrent(g) && g in b && EverKey(g) in b
    requires FillPair(b, f).Ok?
    ensures g in FillPair(b, f).value.block && EverKey(g) in FillPair(b, f).value.block
    ensures f != g ==> (FillPair(b, f).value.block[g] == b[g]
                        && FillPair(b, f).value.block[EverKey(g)] == b[EverKey(g)])
    ensures Balanced(b, g) ==> Balanced(FillPair(b, f).value.block, g)
  {
    if IsCurrent(f) && f != g {
      PairsDisjoint(f, g);
    }
  }

  /** A balanced pair stays balanced through the rest of the pass. */
  lemma {:induction false} BackfillKeepsBalanced(b: Dict, features: seq<string>, current: nat, ever: nat, g: string)
    requires IsCurrent(g) && Balanced(b, g)
    requires BackfillFrom(b, features, current, ever).Ok?
    ensures Balanced(BackfillFrom(b, features, current, ever).value.block, g)
    decreases |features|
  {
    if |features| > 0 {
      var step := FillPair(b, features[0]).value;
      FillPairKeeps(b, features[0], g);
      BackfillKeepsBalanced(step.block, features[1..], current + step.current, ever + step.ever, g);
    }
  }

  /** After the pass every pair of the schema is balanced. */
  lemma {:induction false} BackfillBalances(b: Dict, features: seq<string>, current: nat, ever: nat, g: string)
    requires BackfillFrom(b, features, current, ever).Ok?
    requires g in features && IsCurrent(g)
    ensures Balanced(BackfillFrom(b, features, current, ever).value.block, g)
    decreases |features|
  {
    var step := FillPair(b, features[0]).value;
    if features[0] == g {
      FillPairSpec(b, g);
      BackfillKeepsBalanced(step.block, features[1..], current + step.current, ever + step.ever, g);
    } else {
      assert g in features[1..];
      BackfillBalances(step.block, features[1..], current + step.current, ever + step.ever, g);
    }
  }

  /** On a block whose pairs are all balanced the pass changes nothing. */
  lemma {:induction false} BackfillNothingToDo(b: Dict, features: seq<string>, current: nat, ever: nat)
    requires forall g :: g in features && IsCurrent(g) ==> Balanced(b, g)
    ensures BackfillFrom(b, features, current, ever) == Ok(Fill(b, current, ever))
    decreases |features|
  {
    if |features| > 0 {
      if IsCurrent(features[0]) {
        FillBalanced(b, features[0]);
      }
      BackfillNothingToDo(b, features[1..], current, ever);
    }
  }

  /** A second pass over the same schema fills nothing. */
  lemma {:induction false} BackfillIdempotent(b: Dict, features: seq<string>)
    requires BackfillFrom(b, features, 0, 0).Ok?
    ensures var once := BackfillFrom(b, features, 0, 0).value.block;
      BackfillFrom(once, features, 0, 0) == Ok(Fill(once, 0, 0))
  {
    var once := BackfillFrom(b, features, 0, 0).value.block;
    forall g | g in features && IsCurrent(g) ensures Balanced(once, g) {
      BackfillBalances(b, features, 0, 0, g);
    }
    BackfillNothingToDo(once, features, 0, 0);
  }

  /** The current fills a block needs: pairs answered only on the ever side. */
  function CurrentFills(b: Dict, features: seq<string>): nat
    decreases |features|
  {
    if |features| == 0 then 0
    else
      var f := features[0];
      (if IsCurrent(f) && f in b && EverKey(f) in b && b[f] == Null && b[EverKey(f)] != Null then 1 else 0)
        + CurrentFills(b, features[1..])
  }

  /** The ever fills a block needs: pairs answered only on the current side. */
  function EverFills(b: Dict, features: seq<string>): nat
    decreases |features|
  {
    if |features| == 0 then 0
    else
      var f := features[0];
      (if IsCurrent(f) && f in b && EverKey(f) in b && b[f] != Null && b[EverKey(f)] == Null then 1 else 0)
        + EverFills(b, features[1..])
  }

  /** A fill of one pair changes no count of the other pairs. */
  lemma {:induction false} FillsUnchanged(b: Dict, f: string, features: seq<string>)
    requires FillPair(b, f).Ok? && f !in features
    ensures CurrentFills(FillPair(b, f).value.block, features) == CurrentFills(b, features)
    ensures EverFills(FillPair(b, f).value.block, features) == EverFills(b, features)
    decreases |features|
  {
    if |features| > 0 {
      var g := features[0];
      if IsCurrent(g) && g in b && EverKey(g) in b {
        FillPairKeeps(b, f, g);
      } else if IsCurrent(g) {
        var b' := FillPair(b, f).value.block;
        assert b'.Keys == b.Keys by {
          if IsCurrent(f) { FillPairSpec(b, f); }
        }
      }
      FillsUnchanged(b, f, features[1..]);
    }
  }

  /** When the schema lists each feature once, the counters are exactly the
      number of current and ever fills the block needed before the pass. */
  lemma {:induction false} BackfillCounts(b: Dict, features: seq<string>, current: nat, ever: nat)
    requires forall i, j :: 0 <= i < j < |features| ==> features[i] != features[j]
    requires BackfillFrom(b, features, current, ever).Ok?
    ensures BackfillFrom(b, features, current, ever).value.current == current + CurrentFills(b, features)
    ensures BackfillFrom(b, features, current, ever).value.ever == ever + EverFills(b, features)
    decreases |features|
  {
    if |features| > 0 {
      var f, rest := features[0], features[1..];
      var step := FillPair(b, f).value;
      PairCounts(b, f);
      assert BackfillFrom(b, features, current, ever) == BackfillFrom(step.block, rest, current + step.current, ever + step.ever);
      assert CurrentFills(b, features) == step.current + CurrentFills(b, rest);
      assert EverFills(b, features) == step.ever + EverFills(b, rest);
      assert f !in rest by {
        forall j | 0 <= j < |rest| ensures rest[j] != f {
          assert rest[j] == features[j + 1];
        }
      }
      FillsUnchanged(b, f, rest);
      BackfillCounts(step.block, rest, current + step.current, ever + step.ever);
    }
  }

  /** The counters one pair adds are its own terms of `CurrentFills` and
      `EverFills`. */
  lemma {:induction false} PairCounts(b: Dict, f: string)
    requires FillPair(b, f).Ok?
    ensures FillPair(b, f).value.current == (if IsCurrent(f) && f in b && EverKey(f) in b && b[f] == Null && b[EverKey(f)] != Null then 1 else 0)
    ensures FillPair(b, f).value.ever == (if IsCurrent(f) && f in b && EverKey(f) in b && b[f] != Null && b[EverKey(f)] == Null then 1 else 0)
  {
  }

  /** Lines 20-38 for one sample: a sample without an ADIR block is left
      alone; indexing a non-dict ADIR value raises TypeError. */
  function AdjustSample(s: Dict, features: seq<string>, current: nat, ever: nat): Result<(Dict, nat, nat)> {
    if "ADIR" !in s then Ok((s, current, ever))
    else if !s["ADIR"].Obj? then Err("TypeError")
    else
      var r :- BackfillFrom(s["ADIR"].fields, features, current, ever);
      Ok((s["ADIR" := Obj(r.block)], r.current, r.ever))
  }

  /** A sample without an ADIR block is untouched, and no field other than
      the ADIR block ever changes. */
  lemma {:induction false} AdjustSampleFrame(s: Dict, features: seq<string>, current: nat, ever: nat, k: string)
    requires AdjustSample(s, features, current, ever).Ok?
    ensures "ADIR" !in s ==> AdjustSample(s, features, current, ever).value == (s, current, ever)
    ensures k != "ADIR" ==> (k in AdjustSample(s, features, current, ever).value.0 <==> k in s)
    ensures k != "ADIR" && k in s ==> AdjustSample(s, features, current, ever).value.0[k] == s[k]
  {
  }

  /** Lines 20-38 over all samples in order. */
  function AdjustAll(ss: seq<Dict>, features: seq<string>, current: nat, ever: nat): Result<(seq<Dict>, nat, nat)>
    decreases |ss|
  {
    if |ss| == 0 then Ok(([], current, ever))
    else
      var first :- AdjustSample(ss[0], features, current, ever);
      var rest :- AdjustAll(ss[1..], features, first.1, first.2);
      Ok(([first.0] + rest.0, rest.1, rest.2))
  }

  /** The samples before position `i` already adjusted, in front of the
      adjustment of the rest. */
  function Behind(done: seq<Dict>, rest: Result<(seq<Dict>, nat, nat)>): Result<(seq<Dict>, nat, nat)> {
    if rest.Err? then rest else Ok((done + rest.value.0, rest.value.1, rest.value.2))
  }

  lemma {:induction false} BehindNothing(r: Result<(seq<Dict>, nat, nat)>)
    ensures Behind([], r) == r
  {
    if r.Ok? {
      assert [] + r.value.0 == r.value.0;
    }
  }

  lemma {:induction false} BehindStep(done: seq<Dict>, s: Dict, rest: Result<(seq<Dict>, nat, nat)>)
    ensures Behind(done + [s], rest) == Behind(done, (var r :- rest; Ok(([s] + r.0, r.1, r.2))))
  {
    if rest.Ok? {
      assert done + [s] + rest.value.0 == done + ([s] + rest.value.0);
    }
  }

  /** The adjustment keeps the number and order of the samples. */
  lemma {:induction false} AdjustAllLength(ss: seq<Dict>, features: seq<string>, current: nat, ever: nat)
    requires AdjustAll(ss, features, current, ever).Ok?
    ensures |AdjustAll(ss, features, current, ever).value.0| == |ss|
    ensures forall i :: 0 <= i < |ss| ==>
      AdjustSample(ss[i], features, 0, 0).Ok?
      && AdjustAll(ss, features, current, ever).value.0[i] == AdjustSample(ss[i], features, 0, 0).value.0
    decreases |ss|
  {
    if |ss| > 0 {
      var first := AdjustSample(ss[0], features, current, ever).value;
      AdjustAllLength(ss[1..], features, first.1, first.2);
      AdjustSampleCounters(ss[0], features, current, ever);
      forall i | 1 <= i < |ss| ensures AdjustSample(ss[i], features, 0, 0).Ok?
        && AdjustAll(ss, features, current, ever).value.0[i] == AdjustSample(ss[i], features, 0, 0).value.0
      {
        assert ss[1..][i - 1] == ss[i];
      }
    }
  }

  /** The counters only accumulate: the adjusted sample does not depend on
      them. */
  lemma {:induction false} AdjustSampleCounters(s: Dict, features: seq<string>, current: nat, ever: nat)
    ensures AdjustSample(s, features, current, ever).Ok? <==> AdjustSample(s, features, 0, 0).Ok?
    ensures AdjustSample(s, features, current, ever).Ok? ==>
      AdjustSample(s, features, current, ever).value.0 == AdjustSample(s, features, 0, 0).value.0
  {
    if "ADIR" in s && s["ADIR"].Obj? {
      BackfillCountersFree(s["ADIR"].fields, features, current, ever);
    }
  }

  lemma {:induction false} BackfillCountersFree(b: Dict, features: seq<string>, current: nat, ever: nat)
    ensures BackfillFrom(b, features, current, ever).Ok? <==> BackfillFrom(b, features, 0, 0).Ok?
    ensures BackfillFrom(b, features, current, ever).Ok? ==>
      BackfillFrom(b, features, current, ever).value.block == BackfillFrom(b, features, 0, 0).value.block
    decreases |features|
  {
    if |features| > 0 {
      var step := FillPair(b, features[0]);
      if step.Ok? {
        BackfillCountersFree(step.value.block, features[1..], current + step.value.current, ever + step.value.ever);
        BackfillCountersFree(step.value.block, features[1..], step.value.current, step.value.ever);
      }
    }
  }

  /** Lines 22-38 step by step on one ADIR block. */
  method BackfillBlock(b: Dict, features: seq<string>) returns (r: Result<Fill>)
    ensures r == BackfillFrom(b, features, 0, 0)
  {
    var block := b;
    var current: nat := 0;
    var ever: nat := 0;
    var i := 0;
    while i < |features|
      invariant 0 <= i <= |features|
      invariant BackfillFrom(b, features, 0, 0) == BackfillFrom(block, features[i..], current, ever)
    {
      var feature := features[i];
      assert features[i..][0] == feature && features[i..][1..] == features[i + 1..];
      if StartsWith(feature, "Q") && EndsWith(feature, ".1") {
        var currentKey := feature;
        var everKey := feature[..|feature| - 2] + ".2";
        if currentKey !in block || everKey !in block {
          return Err("KeyError");
        }
        var currentAnswer := block[currentKey];
        var everAnswer := block[everKey];
        if currentAnswer != Null && everAnswer != Null {
        } else if currentAnswer == Null && everAnswer != Null {
          block := block[currentKey := everAnswer];
          current := current + 1;
        } else if currentAnswer != Null && everAnswer == Null {
          block := block[everKey := currentAnswer];
          ever := ever + 1;
        }
      }
      i := i + 1;
    }
    return Ok(Fill(block, current, ever));
  }

  /** Lines 18-38: the whole pass over the samples, in place, with the two
      counters. Returns false where the source raises. */
  method AdjustSamples(samples: array<Dict>, features: seq<string>) returns (ok: bool, current: nat, ever: nat)
    modifies samples
    ensures ok == AdjustAll(old(samples[..]), features, 0, 0).Ok?
    ensures ok ==> (samples[..], current, ever) == AdjustAll(old(samples[..]), features, 0, 0).value
  {
    current, ever := 0, 0;
    var i := 0;
    assert samples[i..] == samples[..];
    BehindNothing(AdjustAll(samples[..], features, 0, 0));
    while i < samples.Length
      invariant 0 <= i <= samples.Length
      invariant samples[i..] == old(samples[i..])
      invariant AdjustAll(old(samples[..]), features, 0, 0)
             == Behind(samples[..i], AdjustAll(samples[i..], features, current, ever))
    {
      var sample := samples[i];
      assert samples[i..][0] == sample && samples[i..][1..] == samples[i + 1..];
      ghost var done := samples[..i];
      ghost var c0, e0 := current, ever;
      if "ADIR" in sample {
        if !sample["ADIR"].Obj? {
          assert AdjustSample(sample, features, current, ever).Err?;
          return false, current, ever;
        }
        var filled := BackfillBlock(sample["ADIR"].fields, features);
        BackfillCountersFree(sample["ADIR"].fields, features, current, ever);
        if filled.Err? {
          assert AdjustSample(sample, features, current, ever).Err?;
          return false, current, ever;
        }
        BackfillCounterShift(sample["ADIR"].fields, features, current, ever);
        samples[i] := sample["ADIR" := Obj(filled.value.block)];
        current := current + filled.value.current;
        ever := ever + filled.value.ever;
      }
      assert AdjustSample(sample, features, c0, e0) == Ok((samples[i], current, ever));
      assert samples[..i + 1] == done + [samples[i]];
      BehindStep(done, samples[i], AdjustAll(samples[i + 1..], features, current, ever));
      i := i + 1;
    }
    assert samples[..i] == samples[..] && samples[..] + [] == samples[..];
    ok := true;
  }

  /** Starting the counters at `current` and `ever` adds them to the
      counts. */
  lemma {:induction false} BackfillCounterShift(b: Dict, features: seq<string>, current: nat, ever: nat)
    requires BackfillFrom(b, features, 0, 0).Ok?
    ensures BackfillFrom(b, features, current, ever).Ok?
    ensures BackfillFrom(b, features, current, ever).value.current == current + BackfillFrom(b, features, 0, 0).value.current
    ensures BackfillFrom(b, features, current, ever).value.ever == ever + BackfillFrom(b, features, 0, 0).value.ever
    decreases |features|
  {
    if |features| > 0 {
      var step := FillPair(b, features[0]).value;
      BackfillCountersFree(step.block, features[1..], step.current, step.ever);
      BackfillCounterShift(step.block, features[1..], step.current, step.ever);
      BackfillCounterShift(step.block, features[1..], current + step.current, ever + step.ever);
    }
  }
}
