/** The final sample filter: only samples scored on both the ADI-R and the
    ADOS are kept. */
module KeepOnlyBothInstruments {
  import opened Json
  import opened Subsequences

  predicate HasBoth(s: Dict) {
    "ADIR" in s && "ADOS" in s
  }

  /** Line 10: the list comprehension over the samples. */
  function KeepBoth(samples: seq<Dict>): seq<Dict>
    decreases |samples|
  {
    if |samples| == 0 then []
    else (if HasBoth(samples[0]) then [samples[0]] else []) + KeepBoth(samples[1..])
  }

  /** A sample is kept, unmodified, exactly when it has both instruments. */
  lemma {:induction false} KeepBothMembers(samples: seq<Dict>, x: Dict)
    ensures x in KeepBoth(samples) <==> x in samples && HasBoth(x)
    decreases |samples|
  {
    if |samples| > 0 {
      KeepBothMembers(samples[1..], x);
      assert samples == [samples[0]] + samples[1..];
    }
  }

  /** The output keeps the input order and is no longer than it. */
  lemma {:induction false} KeepBothOrder(samples: seq<Dict>)
    ensures IsSubsequence(KeepBoth(samples), samples)
    ensures |KeepBoth(samples)| <= |samples|
    decreases |samples|
  {
    if |samples| > 0 {
      KeepBothOrder(samples[1..]);
      if HasBoth(samples[0]) {
        assert KeepBoth(samples)[1..] == KeepBoth(samples[1..]);
      } else {
        assert KeepBoth(samples) == KeepBoth(samples[1..]);
        SkipFirst(KeepBoth(samples[1..]), samples);
      }
    }
  }
}
