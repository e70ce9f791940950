/** The diagnosis engine: null-aware subscores, the ADI-R algorithm, the four
    ADOS module algorithms, the virtual ADOS copy, the CPEA-style secondary
    diagnosis and its adjusted variant, the any-signal overall diagnosis and
    the keyword classifier for free-text clinical diagnoses.

    Each `assign_*` step of the source is a pure function here that computes
    the scores from an instrument block, plus a method of `Sample` that writes
    them into the sample in place. */
module AssignDiagnosis {
  import opened Wrappers
  import opened Json
  import opened Strings

  // ---------------------------------------------------------------------------
  // Labels
  // ---------------------------------------------------------------------------

  const AUTISM := "Autism"
  const AUTISM_SPECTRUM := "Autism Spectrum"
  /** The CPEA label, spelled as the source spells it. */
  const ASPERGERS := "Aspergers"
  /** The clinical-text label. */
  const ASPERGER := "Asperger"
  const PDD_NOS := "PDD-NOS"
  const CONTROL := "Control"
  const SUSPECTED_CONTROL := "Suspected Control"

  // ---------------------------------------------------------------------------
  // calculate_subscore
  // ---------------------------------------------------------------------------

  /** The default clamp: 3 counts as 2 and anything above 3 as 0. */
  function Clamp(x: int): int {
    if x == 3 then 2 else if x > 3 then 0 else x
  }

  /** The default reducer: the sum of the clamped non-null entries. */
  function ClampedSum(e: seq<Option<int>>): int {
    if |e| == 0 then 0
    else (if e[0].Some? then Clamp(e[0].value) else 0) + ClampedSum(e[1..])
  }

  /** The unclamped reducer used for the domain totals. */
  function PlainSum(e: seq<Option<int>>): int {
    if |e| == 0 then 0
    else (if e[0].Some? then e[0].value else 0) + PlainSum(e[1..])
  }

  /** The number of null entries, `sum(x is None for x in score_entries)`. */
  function NullCount(e: seq<Option<int>>): nat {
    if |e| == 0 then 0
    else (if e[0].None? then 1 else 0) + NullCount(e[1..])
  }

  /** The null count is the multiplicity of None among the entries. */
  lemma {:induction false} NullCountIsMultiplicity(e: seq<Option<int>>)
    ensures NullCount(e) == multiset(e)[None]
  {
    if |e| > 0 {
      NullCountIsMultiplicity(e[1..]);
      assert e == [e[0]] + e[1..];
      assert multiset(e) == multiset([e[0]]) + multiset(e[1..]);
    }
  }

  /** Subscores and null counts are additive over concatenation. */
  lemma {:induction false} SubscoreAppend(a: seq<Option<int>>, b: seq<Option<int>>)
    ensures ClampedSum(a + b) == ClampedSum(a) + ClampedSum(b)
    ensures PlainSum(a + b) == PlainSum(a) + PlainSum(b)
    ensures NullCount(a + b) == NullCount(a) + NullCount(b)
  {
    if |a| > 0 {
      assert (a + b)[1..] == a[1..] + b;
      SubscoreAppend(a[1..], b);
    } else {
      assert a + b == b;
    }
  }

  /** With non-negative items, a default subscore lies between 0 and twice the
      number of non-null entries. */
  lemma {:induction false} ClampedSumBounds(e: seq<Option<int>>)
    requires forall i :: 0 <= i < |e| && e[i].Some? ==> e[i].value >= 0
    ensures 0 <= ClampedSum(e) <= 2 * (|e| - NullCount(e))
  {
    if |e| > 0 {
      ClampedSumBounds(e[1..]);
    }
  }

  /** Entries `[sample[instrument][f] for f in features]`. */
  function Entries(b: Dict, features: seq<string>): (e: seq<Option<int>>)
    requires NumericAt(b, features)
    ensures |e| == |features|
    ensures forall i :: 0 <= i < |features| ==> OfInt(e[i]) == b[features[i]]
  {
    seq(|features|, i requires 0 <= i < |features| => Num(b, features[i]))
  }

  // ---------------------------------------------------------------------------
  // ADI-R
  // ---------------------------------------------------------------------------

  const A1_ITEMS := ["Q50.2", "Q51.2", "Q57.2"]
  const A2_ITEMS := ["Q49.2", "Q62.2", "Q63.2"]
  const A3_ITEMS := ["Q52.2", "Q53.2", "Q54.2"]
  const A4_ITEMS := ["Q31.2", "Q55.2", "Q56.2", "Q58.2", "Q59.2"]
  const B1_ITEMS := ["Q42.2", "Q43.2", "Q44.2", "Q45.2"]
  const B4_ITEMS := ["Q47.2", "Q68.2", "Q61.2"]
  const B2_ITEMS := ["Q34.2", "Q35.2"]
  /** Q37.2 is listed twice, as in the source. */
  const B3_ITEMS := ["Q33.2", "Q36.2", "Q37.2", "Q37.2", "Q38.2"]
  const C1_ITEMS := ["Q67.2", "Q68.2"]
  const C2_ITEMS := ["Q70.2"]
  const D_ITEMS := ["Q02", "Q09", "Q10", "Q86", "Q87"]
  /** Every field the ADI-R algorithm reads is present and numeric (the
      source raises KeyError or TypeError otherwise). Q64.2 is read only when
      age is null or under 120 months, Q65.2 only otherwise. The B2 and B3
      items and Q39.2 are read only for a verbal individual (Q30 is 0); for
      anyone else the block's existing B2 and B3 values are read instead. */
  predicate AdirReadable(b: Dict) {
    SocialReadable(b) && CommunicationReadable(b) && RrbReadable(b) && NumericAt(b, D_ITEMS)
  }

  predicate SocialReadable(b: Dict) {
    && NumericAt(b, A1_ITEMS) && NumericAt(b, A2_ITEMS) && NumericAt(b, A3_ITEMS) && NumericAt(b, A4_ITEMS)
    && NumAt(b, "age")
    && (if Num(b, "age").None? || Num(b, "age").value < 120 then NumAt(b, "Q64.2") else NumAt(b, "Q65.2"))
  }

  predicate CommunicationReadable(b: Dict) {
    && NumAt(b, "Q30") && NumericAt(b, B1_ITEMS) && NumericAt(b, B4_ITEMS)
    && (b["Q30"] == Int(0) ==> NumericAt(b, B2_ITEMS) && NumericAt(b, B3_ITEMS))
    && (b["Q30"] != Int(0) ==> NumAt(b, "B2") && NumAt(b, "B3"))
  }

  predicate RrbReadable(b: Dict) {
    && NumAt(b, "Q30") && NumericAt(b, C1_ITEMS) && NumericAt(b, C2_ITEMS)
    && (b["Q30"] == Int(0) ==> NumAt(b, "Q39.2")) && NumAt(b, "Q77.2") && NumAt(b, "Q78.2") && NumAt(b, "Q69.2") && NumAt(b, "Q71.2")
  }

  /** `None if Q30 is None else Q30 == 0`. */
  function Verbal(q30: Option<int>): (v: Option<bool>)
    ensures v.None? <==> q30.None?
    ensures v == Some(true) <==> q30 == Some(0)
  {
    match q30
    case None => None
    case Some(x) => Some(x == 0)
  }

  /** Python's truth value of `is_verbal`: None is falsy. */
  predicate Truthy(v: Option<bool>) {
    v == Some(true)
  }

  /** `x if y is None else (y if x is None else max(x, y))`: the larger
      of the two when both are present, otherwise whichever is present. */
  function MaxOrWhichever(x: Option<int>, y: Option<int>): (r: Option<int>)
    ensures r.None? <==> x.None? && y.None?
    ensures x.Some? && y.Some? ==> r.value >= x.value && r.value >= y.value && (r.value == x.value || r.value == y.value)
    ensures x.Some? && y.None? ==> r == x
    ensures x.None? && y.Some? ==> r == y
  {
    if y.None? then x
    else if x.None? then y
    else Some(if x.value >= y.value then x.value else y.value)
  }

  /** One condition of the before-age-3 count: 1 when the item is present
      and meets it. */
  function Hit(x: Option<int>, cond: bool): (n: nat)
    ensures n <= 1
  {
    if x.Some? && cond then 1 else 0
  }

  /** `abnormality_evident_before_3_years` over the entries Q02, Q09, Q10,
      Q86, Q87. */
  function BeforeThree(e: seq<Option<int>>): (n: nat)
    requires |e| == 5
    ensures n <= 5
  {
    Hit(e[0], e[0].Some? && e[0].value < 36)
    + Hit(e[1], e[1].Some? && e[1].value > 24)
    + Hit(e[2], e[2].Some? && e[2].value > 33)
    + Hit(e[3], e[3].Some? && (e[3].value == 3 || e[3].value == 4))
    + Hit(e[4], e[4].Some? && e[4].value < 36)
  }

  /** The five before-age-3 conditions, each stated on its own. */
  predicate BeforeThreeCondition(k: nat, x: int)
    requires k < 5
  {
    match k
    case 0 => x < 36
    case 1 => x > 24
    case 2 => x > 33
    case 3 => x == 3 || x == 4
    case 4 => x < 36
  }

  /** The number of entries from position k on that are present and meet
      their condition. */
  function HitsFrom(e: seq<Option<int>>, k: nat): nat
    requires |e| == 5 && k <= 5
    decreases 5 - k
  {
    if k == 5 then 0
    else (if e[k].Some? && BeforeThreeCondition(k, e[k].value) then 1 else 0) + HitsFrom(e, k + 1)
  }

  /** The before-age-3 score counts the non-null items meeting their
      condition; a null item never contributes. */
  lemma {:induction false} BeforeThreeCounts(e: seq<Option<int>>)
    requires |e| == 5
    ensures BeforeThree(e) == HitsFrom(e, 0)
  {
    assert HitsFrom(e, 5) == 0;
    assert HitsFrom(e, 4) == Hit(e[4], e[4].Some? && e[4].value < 36);
    assert HitsFrom(e, 3) == Hit(e[3], e[3].Some? && (e[3].value == 3 || e[3].value == 4)) + HitsFrom(e, 4);
    assert HitsFrom(e, 2) == Hit(e[2], e[2].Some? && e[2].value > 33) + HitsFrom(e, 3);
    assert HitsFrom(e, 1) == Hit(e[1], e[1].Some? && e[1].value > 24) + HitsFrom(e, 2);
  }

  /** What the ADI-R algorithm computes for one block. `b2` and `b3` are
      present only when the individual is verbal; otherwise the block's own
      B2 and B3 values enter the communication total. */
  datatype AdirScores = AdirScores(
    a1: int, a2: int, a3: int, a4: int, social: int,
    b1: int, b2: Option<int>, b3: Option<int>, b4: int, communication: int,
    c1: int, c2: int, c3: int, c4: int, rrb: int,
    before3: nat, diagnosis: string, numNulls: nat)

  /** The entries each ADI-R subscore reads, taken from the block. The B2
      and B3 item entries are read only for a verbal individual (empty
      otherwise); the stored B2 and B3 values only for anyone else. */
  datatype AdirItems = AdirItems(
    verbal: Option<bool>,
    a1: seq<Option<int>>, a2: seq<Option<int>>, a3: seq<Option<int>>, a4: seq<Option<int>>,
    b1: seq<Option<int>>, b4: seq<Option<int>>, b2: seq<Option<int>>, b3: seq<Option<int>>,
    storedB2: Option<int>, storedB3: Option<int>,
    c1: seq<Option<int>>, c2: seq<Option<int>>, c3: seq<Option<int>>, c4: seq<Option<int>>,
    d: seq<Option<int>>)

  /** The score entries of assign_adir_diagnosis: the A2 extra entry is Q64.2
      when age is null or under 120 months, else Q65.2; the C2 extra entry is
      Q39.2 when verbal, else the constant 0; C3 and C4 take the larger of two
      items, or whichever is present. */
  function ReadAdir(b: Dict): (t: AdirItems)
    requires AdirReadable(b)
    ensures |t.d| == 5
    ensures t.verbal == Verbal(Num(b, "Q30"))
  {
    var (a1, a2, a3, a4) := ReadSocial(b);
    var (b1, b4, b2, b3, storedB2, storedB3) := ReadCommunication(b);
    var (c1, c2, c3, c4) := ReadRrb(b);
    AdirItems(Verbal(Num(b, "Q30")), a1, a2, a3, a4, b1, b4, b2, b3, storedB2, storedB3,
      c1, c2, c3, c4, Entries(b, D_ITEMS))
  }

  function ReadSocial(b: Dict): (seq<Option<int>>, seq<Option<int>>, seq<Option<int>>, seq<Option<int>>)
    requires SocialReadable(b)
  {
    var age := Num(b, "age");
    var a2Extra := if age.None? || age.value < 120 then Num(b, "Q64.2") else Num(b, "Q65.2");
    (Entries(b, A1_ITEMS), Entries(b, A2_ITEMS) + [a2Extra], Entries(b, A3_ITEMS), Entries(b, A4_ITEMS))
  }

  function ReadCommunication(b: Dict):
    (seq<Option<int>>, seq<Option<int>>, seq<Option<int>>, seq<Option<int>>, Option<int>, Option<int>)
    requires CommunicationReadable(b)
  {
    var verbal := Truthy(Verbal(Num(b, "Q30")));
    (Entries(b, B1_ITEMS), Entries(b, B4_ITEMS),
     if verbal then Entries(b, B2_ITEMS) else [],
     if verbal then Entries(b, B3_ITEMS) else [],
     if verbal then None else Num(b, "B2"),
     if verbal then None else Num(b, "B3"))
  }

  function ReadRrb(b: Dict): (seq<Option<int>>, seq<Option<int>>, seq<Option<int>>, seq<Option<int>>)
    requires RrbReadable(b)
  {
    var c2Extra := if Truthy(Verbal(Num(b, "Q30"))) then Num(b, "Q39.2") else Some(0);
    (Entries(b, C1_ITEMS), Entries(b, C2_ITEMS) + [c2Extra],
     [MaxOrWhichever(Num(b, "Q77.2"), Num(b, "Q78.2"))],
     [MaxOrWhichever(Num(b, "Q69.2"), Num(b, "Q71.2"))])
  }

  /** The ADI-R communication threshold as the source writes it: with
      verbal status unknown, `not is_verbal` holds, so 7 suffices. */
  predicate AdirCommunicationMet(verbal: Option<bool>, communication: int) {
    ((verbal.None? || Truthy(verbal)) && communication >= 8)
    || (!Truthy(verbal) && communication >= 7)
  }

  /** Every entry the ADI-R null count ranges over, in the source's order. */
  function AdirInputs(t: AdirItems): seq<Option<int>> {
    t.a1 + t.a2 + t.a3 + t.a4 + t.b1 + t.b4 + t.b2 + t.b3 + t.c1 + t.c2 + t.c3 + t.c4 + t.d
  }

  /** The ADI-R subscores, totals, label and null count. The domain totals
      are plain sums of sub-subscores that are never null, except that a
      non-verbal individual's stored B2 and B3 count as 0 when null. */
  function ScoreItems(t: AdirItems): (s: AdirScores)
    requires |t.d| == 5
    ensures s.social == s.a1 + s.a2 + s.a3 + s.a4
    ensures s.rrb == s.c1 + s.c2 + s.c3 + s.c4
    ensures s.b2.Some? <==> Truthy(t.verbal)
    ensures s.b3.Some? <==> Truthy(t.verbal)
    ensures s.communication == s.b1 + s.b4
      + (if Truthy(t.verbal) then s.b2.value + s.b3.value else t.storedB2.GetOr(0) + t.storedB3.GetOr(0))
  {
    var a1 := ClampedSum(t.a1);
    var a2 := ClampedSum(t.a2);
    var a3 := ClampedSum(t.a3);
    var a4 := ClampedSum(t.a4);
    var social := a1 + a2 + a3 + a4;
    var b1 := ClampedSum(t.b1);
    var b4 := ClampedSum(t.b4);
    var b2: Option<int> := if Truthy(t.verbal) then Some(ClampedSum(t.b2)) else None;
    var b3: Option<int> := if Truthy(t.verbal) then Some(ClampedSum(t.b3)) else None;
    var b2Read := if Truthy(t.verbal) then b2 else t.storedB2;
    var b3Read := if Truthy(t.verbal) then b3 else t.storedB3;
    var communication := b1 + b2Read.GetOr(0) + b3Read.GetOr(0) + b4;
    var c1 := ClampedSum(t.c1);
    var c2 := ClampedSum(t.c2);
    var c3 := ClampedSum(t.c3);
    var c4 := ClampedSum(t.c4);
    var rrb := c1 + c2 + c3 + c4;
    var d := BeforeThree(t.d);
    var nulls := NullCount(t.a1) + NullCount(t.a2) + NullCount(t.a3) + NullCount(t.a4)
      + NullCount(t.b1) + NullCount(t.b4) + NullCount(t.b2) + NullCount(t.b3)
      + NullCount(t.c1) + NullCount(t.c2) + NullCount(t.c3) + NullCount(t.c4)
      + NullCount(t.d);
    var autism := social >= 10 && AdirCommunicationMet(t.verbal, communication) && rrb >= 3 && d >= 1;
    AdirScores(a1, a2, a3, a4, social, b1, b2, b3, b4, communication, c1, c2, c3, c4, rrb,
      d, if autism then AUTISM else CONTROL,
      nulls + (if t.verbal.None? then 1 else 0))
  }

  /** assign_adir_diagnosis, as a function of the ADI-R block. */
  function ScoreAdir(b: Dict): (s: AdirScores)
    requires AdirReadable(b)
    ensures s.diagnosis == AUTISM || s.diagnosis == CONTROL
  {
    ScoreItems(ReadAdir(b))
  }

  /** The ADI-R rule in plain terms: Autism iff social interaction is at
      least 10, repetitive behaviour at least 3, the before-age-3 score at
      least 1, and communication at least 8, or at least 7 unless Q30 is 0
      (an unknown verbal status takes the lower threshold). */
  lemma {:induction false} AdirDiagnosisRule(b: Dict)
    requires AdirReadable(b)
    ensures var s := ScoreAdir(b);
      s.diagnosis == AUTISM <==>
        && s.social >= 10 && s.rrb >= 3 && s.before3 >= 1
        && (s.communication >= 8 || (s.communication >= 7 && b["Q30"] != Int(0)))
  {
    var t := ReadAdir(b);
    assert Truthy(t.verbal) <==> b["Q30"] == Int(0);
  }

  /** `diagnosis_num_nulls` counts exactly the null score entries of all
      subscores, plus one when verbal status (Q30) is unknown. */
  lemma {:induction false} AdirNullConservation(b: Dict)
    requires AdirReadable(b)
    ensures ScoreAdir(b).numNulls == multiset(AdirInputs(ReadAdir(b)))[None] + (if b["Q30"] == Null then 1 else 0)
  {
    var t := ReadAdir(b);
    SubscoreAppend(t.a1, t.a2);
    SubscoreAppend(t.a1 + t.a2, t.a3);
    SubscoreAppend(t.a1 + t.a2 + t.a3, t.a4);
    SubscoreAppend(t.a1 + t.a2 + t.a3 + t.a4, t.b1);
    SubscoreAppend(t.a1 + t.a2 + t.a3 + t.a4 + t.b1, t.b4);
    SubscoreAppend(t.a1 + t.a2 + t.a3 + t.a4 + t.b1 + t.b4, t.b2);
    SubscoreAppend(t.a1 + t.a2 + t.a3 + t.a4 + t.b1 + t.b4 + t.b2, t.b3);
    SubscoreAppend(t.a1 + t.a2 + t.a3 + t.a4 + t.b1 + t.b4 + t.b2 + t.b3, t.c1);
    SubscoreAppend(t.a1 + t.a2 + t.a3 + t.a4 + t.b1 + t.b4 + t.b2 + t.b3 + t.c1, t.c2);
    SubscoreAppend(t.a1 + t.a2 + t.a3 + t.a4 + t.b1 + t.b4 + t.b2 + t.b3 + t.c1 + t.c2, t.c3);
    SubscoreAppend(t.a1 + t.a2 + t.a3 + t.a4 + t.b1 + t.b4 + t.b2 + t.b3 + t.c1 + t.c2 + t.c3, t.c4);
    SubscoreAppend(t.a1 + t.a2 + t.a3 + t.a4 + t.b1 + t.b4 + t.b2 + t.b3 + t.c1 + t.c2 + t.c3 + t.c4, t.d);
    NullCountIsMultiplicity(AdirInputs(t));
  }

  /** An item key: the instrument's question fields all start with Q. */
  predicate ItemKey(k: string) {
    |k| > 0 && k[0] == 'Q'
  }

  /** Every key of an item group is a question field. */
  predicate ItemKeys(keys: seq<string>) {
    forall k :: k in keys ==> ItemKey(k)
  }

  /** The subscores the ADI-R step writes besides the five score fields;
      B2 and B3 only when recomputed. */
  function AdirItemWrites(s: AdirScores): Dict {
    var items := map[
      "A1" := Int(s.a1), "A2" := Int(s.a2), "A3" := Int(s.a3), "A4" := Int(s.a4),
      "B1" := Int(s.b1), "B4" := Int(s.b4),
      "C1" := Int(s.c1), "C2" := Int(s.c2), "C3" := Int(s.c3), "C4" := Int(s.c4),
      "abnormality_evident_before_3_years" := Int(s.before3)];
    var withB2 := if s.b2.Some? then items["B2" := Int(s.b2.value)] else items;
    if s.b3.Some? then withB2["B3" := Int(s.b3.value)] else withB2
  }

  /** The five score fields of an ADI-R result. */
  function AdirTotals(s: AdirScores): AdosScores {
    AdosScores(s.communication, s.social, s.rrb, s.diagnosis, s.numNulls)
  }

  /** The fields the ADI-R step writes. */
  function AdirWrites(s: AdirScores): Dict {
    AdirItemWrites(s) + ScoreWrites(AdirTotals(s))
  }

  /** The ADI-R step writes score names only, none of which is a question
      field or `age`. */
  lemma {:induction false} AdirWritesNames(s: AdirScores)
    ensures ScoreNamesOnly(AdirWrites(s))
  {
    assert ScoreNamesOnly(AdirItemWrites(s));
    assert ScoreNamesOnly(ScoreWrites(AdirTotals(s)));
  }

  /** The ADI-R step writes B2 and B3 only when it recomputed them. */
  lemma {:induction false} AdirWritesGate(s: AdirScores)
    ensures "B2" in AdirWrites(s) <==> s.b2.Some?
    ensures "B3" in AdirWrites(s) <==> s.b3.Some?
  {
    assert "B2" !in ScoreWrites(AdirTotals(s)) && "B3" !in ScoreWrites(AdirTotals(s));
  }

  /** A block with the five score fields written last is scored, and
      carries the written diagnosis and null count. */
  lemma {:induction false} ScoreWritesScored(b: Dict, c: Dict, t: AdosScores)
    ensures Scored(Obj(b + (c + ScoreWrites(t))))
    ensures (b + (c + ScoreWrites(t)))["diagnosis"] == Str(t.diagnosis)
    ensures (b + (c + ScoreWrites(t)))["diagnosis_num_nulls"] == Int(t.numNulls)
  {
  }

  /** The ADI-R block after assign_adir_diagnosis. */
  function ScoredAdirBlock(b: Dict): Dict
    requires AdirReadable(b)
  {
    b + AdirWrites(ScoreAdir(b))
  }

  /** The scored ADI-R block keeps every field it had and holds the five
      score fields, with integer totals and the computed diagnosis. */
  lemma {:induction false} AdirBlockScored(b: Dict)
    requires AdirReadable(b)
    ensures b.Keys <= ScoredAdirBlock(b).Keys
    ensures Scored(Obj(ScoredAdirBlock(b)))
    ensures ScoredAdirBlock(b)["diagnosis"] == Str(ScoreAdir(b).diagnosis)
    ensures ScoredAdirBlock(b)["diagnosis_num_nulls"] == Int(ScoreAdir(b).numNulls)
  {
    var s := ScoreAdir(b);
    ScoreWritesScored(b, AdirItemWrites(s), AdirTotals(s));
  }

  /** Writing keys outside an item group leaves the group's entries as they
      were. */
  lemma {:induction false} EntriesUnwritten(b: Dict, w: Dict, keys: seq<string>)
    requires NumericAt(b, keys)
    requires forall k :: k in keys ==> k !in w
    ensures NumericAt(b + w, keys)
    ensures Entries(b + w, keys) == Entries(b, keys)
  {
  }

  /** A write that touches only score names: no question field, no age. */
  predicate ScoreNamesOnly(w: Dict) {
    forall k :: k in w ==> !ItemKey(k) && k != "age"
  }

  lemma {:induction false} SocialUnwritten(b: Dict, w: Dict)
    requires SocialReadable(b) && ScoreNamesOnly(w)
    ensures SocialReadable(b + w) && ReadSocial(b + w) == ReadSocial(b)
  {
    assert ItemKeys(A1_ITEMS) && ItemKeys(A2_ITEMS) && ItemKeys(A3_ITEMS) && ItemKeys(A4_ITEMS);
    EntriesUnwritten(b, w, A1_ITEMS);
    EntriesUnwritten(b, w, A2_ITEMS);
    EntriesUnwritten(b, w, A3_ITEMS);
    EntriesUnwritten(b, w, A4_ITEMS);
    assert ItemKey("Q64.2") && ItemKey("Q65.2");
  }

  lemma {:induction false} CommunicationUnwritten(b: Dict, w: Dict)
    requires CommunicationReadable(b) && ScoreNamesOnly(w)
    requires b["Q30"] != Int(0) ==> "B2" !in w && "B3" !in w
    ensures CommunicationReadable(b + w) && ReadCommunication(b + w) == ReadCommunication(b)
  {
    assert ItemKey("Q30");
    assert ItemKeys(B1_ITEMS) && ItemKeys(B2_ITEMS) && ItemKeys(B3_ITEMS) && ItemKeys(B4_ITEMS);
    EntriesUnwritten(b, w, B1_ITEMS);
    EntriesUnwritten(b, w, B4_ITEMS);
    if b["Q30"] == Int(0) {
      EntriesUnwritten(b, w, B2_ITEMS);
      EntriesUnwritten(b, w, B3_ITEMS);
    }
  }

  lemma {:induction false} RrbUnwritten(b: Dict, w: Dict)
    requires RrbReadable(b) && ScoreNamesOnly(w)
    ensures RrbReadable(b + w) && ReadRrb(b + w) == ReadRrb(b)
  {
    assert ItemKeys(C1_ITEMS) && ItemKeys(C2_ITEMS);
    EntriesUnwritten(b, w, C1_ITEMS);
    EntriesUnwritten(b, w, C2_ITEMS);
    assert ItemKey("Q30") && ItemKey("Q39.2");
    assert ItemKey("Q77.2") && ItemKey("Q78.2") && ItemKey("Q69.2") && ItemKey("Q71.2");
  }

  /** Writing only score names leaves everything the ADI-R algorithm reads
      as it was, provided a non-verbal individual's B2 and B3 are not
      written. */
  lemma {:induction false} ReadAdirUnwritten(b: Dict, w: Dict)
    requires AdirReadable(b) && ScoreNamesOnly(w)
    requires b["Q30"] != Int(0) ==> "B2" !in w && "B3" !in w
    ensures AdirReadable(b + w)
    ensures ReadAdir(b + w) == ReadAdir(b)
  {
    SocialUnwritten(b, w);
    CommunicationUnwritten(b, w);
    RrbUnwritten(b, w);
    assert ItemKeys(D_ITEMS);
    EntriesUnwritten(b, w, D_ITEMS);
    assert ItemKey("Q30");
  }

  /** The two age-dependent A2 items and the verbal-only C2 item. */
  const GATED_ITEMS := {"Q64.2", "Q65.2", "Q39.2"}

  /** The gated items assign_adir_diagnosis does not read from this block:
      Q65.2 when age is null or under 120 months and Q64.2 otherwise, and
      Q39.2 for anyone who is not verbal. */
  function AdirUnread(b: Dict): (ks: set<string>)
    requires SocialReadable(b) && NumAt(b, "Q30")
    ensures ks <= GATED_ITEMS
  {
    (if Num(b, "age").None? || Num(b, "age").value < 120 then {"Q65.2"} else {"Q64.2"})
    + (if b["Q30"] != Int(0) then {"Q39.2"} else {})
  }

  /** Removing keys outside an item group leaves the group's entries as
      they were. */
  lemma {:induction false} EntriesWithout(b: Dict, ks: set<string>, keys: seq<string>)
    requires NumericAt(b, keys)
    requires forall k :: k in keys ==> k !in ks
    ensures NumericAt(b - ks, keys)
    ensures Entries(b - ks, keys) == Entries(b, keys)
  {
  }

  /** No key of the group is among the removed ones. */
  predicate Avoids(keys: seq<string>, ks: set<string>) {
    forall k :: k in keys ==> k !in ks
  }

  lemma {:induction false} SocialWithout(b: Dict, ks: set<string>)
    requires SocialReadable(b)
    requires Avoids(A1_ITEMS, ks) && Avoids(A2_ITEMS, ks) && Avoids(A3_ITEMS, ks) && Avoids(A4_ITEMS, ks)
    requires "age" !in ks
    requires if Num(b, "age").None? || Num(b, "age").value < 120 then "Q64.2" !in ks else "Q65.2" !in ks
    ensures SocialReadable(b - ks) && ReadSocial(b - ks) == ReadSocial(b)
  {
    EntriesWithout(b, ks, A1_ITEMS);
    EntriesWithout(b, ks, A2_ITEMS);
    EntriesWithout(b, ks, A3_ITEMS);
    EntriesWithout(b, ks, A4_ITEMS);
  }

  lemma {:induction false} CommunicationWithout(b: Dict, ks: set<string>)
    requires CommunicationReadable(b)
    requires Avoids(B1_ITEMS, ks) && Avoids(B4_ITEMS, ks)
    requires b["Q30"] == Int(0) ==> Avoids(B2_ITEMS, ks) && Avoids(B3_ITEMS, ks)
    requires "Q30" !in ks && "B2" !in ks && "B3" !in ks
    ensures CommunicationReadable(b - ks) && ReadCommunication(b - ks) == ReadCommunication(b)
  {
    EntriesWithout(b, ks, B1_ITEMS);
    EntriesWithout(b, ks, B4_ITEMS);
    if b["Q30"] == Int(0) {
      EntriesWithout(b, ks, B2_ITEMS);
      EntriesWithout(b, ks, B3_ITEMS);
    }
  }

  lemma {:induction false} RrbWithout(b: Dict, ks: set<string>)
    requires RrbReadable(b)
    requires Avoids(C1_ITEMS, ks) && Avoids(C2_ITEMS, ks)
    requires b["Q30"] == Int(0) ==> "Q39.2" !in ks
    requires "Q30" !in ks && "Q77.2" !in ks && "Q78.2" !in ks && "Q69.2" !in ks && "Q71.2" !in ks
    ensures RrbReadable(b - ks) && ReadRrb(b - ks) == ReadRrb(b)
  {
    EntriesWithout(b, ks, C1_ITEMS);
    EntriesWithout(b, ks, C2_ITEMS);
  }

  /** None of the always-read ADI-R fields is a gated item. */
  lemma {:induction false} GatedAvoidsSocial()
    ensures Avoids(A1_ITEMS, GATED_ITEMS) && Avoids(A2_ITEMS, GATED_ITEMS)
    ensures Avoids(A3_ITEMS, GATED_ITEMS) && Avoids(A4_ITEMS, GATED_ITEMS)
    ensures "age" !in GATED_ITEMS
  {
    assert "age"[0] != 'Q';
  }

  lemma {:induction false} GatedAvoidsCommunication()
    ensures Avoids(B1_ITEMS, GATED_ITEMS) && Avoids(B4_ITEMS, GATED_ITEMS)
    ensures Avoids(B2_ITEMS, GATED_ITEMS) && Avoids(B3_ITEMS, GATED_ITEMS)
    ensures "Q30" !in GATED_ITEMS && "B2" !in GATED_ITEMS && "B3" !in GATED_ITEMS
  {
    assert "B2"[0] != 'Q';
  }

  lemma {:induction false} GatedAvoidsRest()
    ensures Avoids(C1_ITEMS, GATED_ITEMS) && Avoids(C2_ITEMS, GATED_ITEMS) && Avoids(D_ITEMS, GATED_ITEMS)
    ensures "Q77.2" !in GATED_ITEMS && "Q78.2" !in GATED_ITEMS && "Q69.2" !in GATED_ITEMS && "Q71.2" !in GATED_ITEMS
  {
  }

  /** A block lacking the gated items the algorithm skips for it reads
      exactly as the full block: those items are never required. */
  lemma {:induction false} AdirIgnoresUnread(b: Dict)
    requires AdirReadable(b)
    ensures AdirReadable(b - AdirUnread(b))
    ensures ReadAdir(b - AdirUnread(b)) == ReadAdir(b)
  {
    var ks := AdirUnread(b);
    GatedAvoidsSocial();
    GatedAvoidsCommunication();
    GatedAvoidsRest();
    SocialWithout(b, ks);
    CommunicationWithout(b, ks);
    RrbWithout(b, ks);
    EntriesWithout(b, ks, D_ITEMS);
  }

  /** Scoring never changes an item it reads, and B2 and B3 are either
      recomputed from items or left as they were: the scored block reads
      as the block did. */
  lemma {:induction false} AdirStaysReadable(b: Dict)
    requires AdirReadable(b)
    ensures AdirReadable(ScoredAdirBlock(b))
    ensures ReadAdir(ScoredAdirBlock(b)) == ReadAdir(b)
  {
    var s := ScoreAdir(b);
    AdirWritesNames(s);
    AdirGateUnwritten(b);
    ReadAdirUnwritten(b, AdirWrites(s));
  }

  /** Scoring is idempotent. */
  lemma {:induction false} AdirIdempotent(b: Dict)
    requires AdirReadable(b)
    ensures AdirReadable(ScoredAdirBlock(b))
    ensures ScoredAdirBlock(ScoredAdirBlock(b)) == ScoredAdirBlock(b)
  {
    AdirStaysReadable(b);
    UnionIdempotent(b, AdirWrites(ScoreAdir(b)));
  }

  /** A non-verbal individual's B2 and B3 are not written. */
  lemma {:induction false} AdirGateUnwritten(b: Dict)
    requires AdirReadable(b)
    ensures b["Q30"] != Int(0) ==> "B2" !in AdirWrites(ScoreAdir(b)) && "B3" !in AdirWrites(ScoreAdir(b))
  {
    assert Truthy(ReadAdir(b).verbal) <==> b["Q30"] == Int(0);
    AdirWritesGate(ScoreAdir(b));
  }

  lemma {:induction false} UnionIdempotent(b: Dict, w: Dict)
    ensures (b + w) + w == b + w
  {
  }

  // ---------------------------------------------------------------------------
  // ADOS modules
  // ---------------------------------------------------------------------------

  /** What an ADOS module algorithm computes for one block. */
  datatype AdosScores = AdosScores(communication: int, social: int, rrb: int, diagnosis: string, numNulls: nat)

  const M1_COMM := ["QA02", "QA07", "QA08"]
  const M1_SOCIAL := ["QB01", "QB03", "QB04", "QB05", "QB09", "QB10", "QB11", "QB12"]
  const M1_RRB := ["QA03", "QA05", "QD01", "QD02", "QD04"]
  const M2_COMM := ["QA06", "QA07"]
  const M2_SOCIAL := ["QB01", "QB02", "QB03", "QB05", "QB06", "QB08", "QB11", "QB12"]
  const M2_RRB := ["QA04", "QD01", "QD02", "QD04"]
  const M3_COMM := ["QA07", "QA08", "QA09"]
  const M3_SOCIAL := ["QB01", "QB02", "QB04", "QB07", "QB09", "QB10", "QB11"]
  const M3_RRB := ["QA04", "QD01", "QD02", "QD04"]
  const M4_COMM := ["QA04", "QA08", "QA09", "QA10"]
  const M4_SOCIAL := ["QB01", "QB02", "QB06", "QB08", "QB09", "QB11", "QB12"]
  const M4_RRB := ["QD01", "QD02", "QD04", "QD05"]

  /** The three-band cut used by modules 1 to 3: Autism at `hi`, Autism
      Spectrum at `lo`, Control below. */
  function Band(total: int, hi: int, lo: int): string {
    if total >= hi then AUTISM else if total >= lo then AUTISM_SPECTRUM else CONTROL
  }

  /** Rank of a label in the order Control < Autism Spectrum < Autism. */
  function Rank(d: string): nat {
    if d == AUTISM then 2 else if d == AUTISM_SPECTRUM then 1 else 0
  }

  /** A banded label never drops when the total rises, for fixed cut-offs
      with `lo <= hi`. */
  lemma {:induction false} BandMonotone(t1: int, t2: int, hi: int, lo: int)
    requires t1 <= t2 && lo <= hi
    ensures Rank(Band(t1, hi, lo)) <= Rank(Band(t2, hi, lo))
  {
  }

  predicate Module1Readable(b: Dict) {
    NumericAt(b, M1_COMM) && NumericAt(b, M1_SOCIAL) && NumericAt(b, M1_RRB) && NumAt(b, "QA01")
  }

  /** assign_ados1_diagnosis: cut-offs 16/11 when QA01 is null or at least 3,
      otherwise 12/8; a null QA01 counts as one more null. */
  function ScoreModule1(b: Dict): (s: AdosScores)
    requires Module1Readable(b)
    ensures s.numNulls == NullCount(Entries(b, M1_COMM) + Entries(b, M1_SOCIAL) + Entries(b, M1_RRB))
                          + (if b["QA01"] == Null then 1 else 0)
  {
    var c := ClampedSum(Entries(b, M1_COMM));
    var so := ClampedSum(Entries(b, M1_SOCIAL));
    var r := ClampedSum(Entries(b, M1_RRB));
    var hasWords := Num(b, "QA01");
    var total := c + so + r;
    var d := if hasWords.None? || hasWords.value >= 3 then Band(total, 16, 11) else Band(total, 12, 8);
    SubscoreAppend(Entries(b, M1_COMM), Entries(b, M1_SOCIAL));
    SubscoreAppend(Entries(b, M1_COMM) + Entries(b, M1_SOCIAL), Entries(b, M1_RRB));
    AdosScores(c, so, r, d,
      NullCount(Entries(b, M1_COMM)) + NullCount(Entries(b, M1_SOCIAL)) + NullCount(Entries(b, M1_RRB))
      + (if hasWords.None? then 1 else 0))
  }

  /** Module 1's cut-offs, stated on the total. */
  lemma {:induction false} Module1Cutoffs(b: Dict)
    requires Module1Readable(b)
    ensures var s := ScoreModule1(b);
      var total := s.communication + s.social + s.rrb;
      var verbalCut := b["QA01"] == Null || (b["QA01"].Int? && b["QA01"].i >= 3);
      && (s.diagnosis == AUTISM <==> total >= (if verbalCut then 16 else 12))
      && (s.diagnosis == AUTISM_SPECTRUM <==> (if verbalCut then 11 else 8) <= total < (if verbalCut then 16 else 12))
      && (s.diagnosis == CONTROL <==> total < (if verbalCut then 11 else 8))
  {
  }

  predicate Module2Readable(b: Dict) {
    NumericAt(b, M2_COMM) && NumericAt(b, M2_SOCIAL) && NumericAt(b, M2_RRB) && NumAt(b, "age")
  }

  /** assign_ados2_diagnosis: cut-offs 9/8 from 60 months of age, 10/7
      below or with the age unknown; a null age counts as one more null. */
  function ScoreModule2(b: Dict): (s: AdosScores)
    requires Module2Readable(b)
    ensures s.numNulls == NullCount(Entries(b, M2_COMM) + Entries(b, M2_SOCIAL) + Entries(b, M2_RRB))
                          + (if b["age"] == Null then 1 else 0)
  {
    var c := ClampedSum(Entries(b, M2_COMM));
    var so := ClampedSum(Entries(b, M2_SOCIAL));
    var r := ClampedSum(Entries(b, M2_RRB));
    var age := Num(b, "age");
    var total := c + so + r;
    var d := if age.Some? && age.value >= 60 then Band(total, 9, 8) else Band(total, 10, 7);
    SubscoreAppend(Entries(b, M2_COMM), Entries(b, M2_SOCIAL));
    SubscoreAppend(Entries(b, M2_COMM) + Entries(b, M2_SOCIAL), Entries(b, M2_RRB));
    AdosScores(c, so, r, d,
      NullCount(Entries(b, M2_COMM)) + NullCount(Entries(b, M2_SOCIAL)) + NullCount(Entries(b, M2_RRB))
      + (if age.None? then 1 else 0))
  }

  /** Module 2's cut-offs, stated on the total. */
  lemma {:induction false} Module2Cutoffs(b: Dict)
    requires Module2Readable(b)
    ensures var s := ScoreModule2(b);
      var total := s.communication + s.social + s.rrb;
      var older := b["age"].Int? && b["age"].i >= 60;
      && (s.diagnosis == AUTISM <==> total >= (if older then 9 else 10))
      && (s.diagnosis == AUTISM_SPECTRUM <==> (if older then 8 else 7) <= total < (if older then 9 else 10))
      && (s.diagnosis == CONTROL <==> total < (if older then 8 else 7))
  {
  }

  predicate Module3Readable(b: Dict) {
    NumericAt(b, M3_COMM) && NumericAt(b, M3_SOCIAL) && NumericAt(b, M3_RRB)
  }

  /** assign_ados3_diagnosis: cut-offs 9/7, no age branch. */
  function ScoreModule3(b: Dict): (s: AdosScores)
    requires Module3Readable(b)
    ensures s.numNulls == NullCount(Entries(b, M3_COMM) + Entries(b, M3_SOCIAL) + Entries(b, M3_RRB))
  {
    var c := ClampedSum(Entries(b, M3_COMM));
    var so := ClampedSum(Entries(b, M3_SOCIAL));
    var r := ClampedSum(Entries(b, M3_RRB));
    SubscoreAppend(Entries(b, M3_COMM), Entries(b, M3_SOCIAL));
    SubscoreAppend(Entries(b, M3_COMM) + Entries(b, M3_SOCIAL), Entries(b, M3_RRB));
    AdosScores(c, so, r, Band(c + so + r, 9, 7),
      NullCount(Entries(b, M3_COMM)) + NullCount(Entries(b, M3_SOCIAL)) + NullCount(Entries(b, M3_RRB)))
  }

  /** Module 3's cut-offs, stated on the total. */
  lemma {:induction false} Module3Cutoffs(b: Dict)
    requires Module3Readable(b)
    ensures var s := ScoreModule3(b);
      var total := s.communication + s.social + s.rrb;
      && (s.diagnosis == AUTISM <==> total >= 9)
      && (s.diagnosis == AUTISM_SPECTRUM <==> 7 <= total < 9)
      && (s.diagnosis == CONTROL <==> total < 7)
  {
  }

  /** For module 3 a higher total never gives a lower label (modules 1 and
      2 follow from BandMonotone once their gating item is fixed). */
  lemma {:induction false} Module3Monotone(b1: Dict, b2: Dict)
    requires Module3Readable(b1) && Module3Readable(b2)
    requires var s1 := ScoreModule3(b1); var s2 := ScoreModule3(b2);
      s1.communication + s1.social + s1.rrb <= s2.communication + s2.social + s2.rrb
    ensures Rank(ScoreModule3(b1).diagnosis) <= Rank(ScoreModule3(b2).diagnosis)
  {
    var s1 := ScoreModule3(b1);
    var s2 := ScoreModule3(b2);
    BandMonotone(s1.communication + s1.social + s1.rrb, s2.communication + s2.social + s2.rrb, 9, 7);
  }

  predicate Module4Readable(b: Dict) {
    NumericAt(b, M4_COMM) && NumericAt(b, M4_SOCIAL) && NumericAt(b, M4_RRB)
  }

  /** The module 4 rule over communication and social interaction only. */
  function Module4Label(c: int, so: int): string {
    if c >= 3 && so >= 6 && c + so >= 10 then AUTISM
    else if c >= 2 && so >= 4 && c + so >= 7 then AUTISM_SPECTRUM
    else CONTROL
  }

  /** assign_ados4_diagnosis: the repetitive-behaviour subscore is computed
      and its nulls counted, but the label never reads it. */
  function ScoreModule4(b: Dict): (s: AdosScores)
    requires Module4Readable(b)
    ensures s.numNulls == NullCount(Entries(b, M4_COMM) + Entries(b, M4_SOCIAL) + Entries(b, M4_RRB))
    ensures s.diagnosis == AUTISM <==> s.communication >= 3 && s.social >= 6 && s.communication + s.social >= 10
    ensures s.diagnosis == AUTISM_SPECTRUM <==>
      !(s.communication >= 3 && s.social >= 6 && s.communication + s.social >= 10)
      && s.communication >= 2 && s.social >= 4 && s.communication + s.social >= 7
  {
    var c := ClampedSum(Entries(b, M4_COMM));
    var so := ClampedSum(Entries(b, M4_SOCIAL));
    var r := ClampedSum(Entries(b, M4_RRB));
    SubscoreAppend(Entries(b, M4_COMM), Entries(b, M4_SOCIAL));
    SubscoreAppend(Entries(b, M4_COMM) + Entries(b, M4_SOCIAL), Entries(b, M4_RRB));
    AdosScores(c, so, r, Module4Label(c, so),
      NullCount(Entries(b, M4_COMM)) + NullCount(Entries(b, M4_SOCIAL)) + NullCount(Entries(b, M4_RRB)))
  }

  /** Two module 4 blocks that agree on the communication and social items
      get the same label, whatever their repetitive-behaviour items. */
  lemma {:induction false} Module4IgnoresRrb(b1: Dict, b2: Dict)
    requires Module4Readable(b1) && Module4Readable(b2)
    requires forall k :: k in M4_COMM + M4_SOCIAL ==> b1[k] == b2[k]
    ensures ScoreModule4(b1).diagnosis == ScoreModule4(b2).diagnosis
  {
    assert Entries(b1, M4_COMM) == Entries(b2, M4_COMM);
    assert Entries(b1, M4_SOCIAL) == Entries(b2, M4_SOCIAL);
  }

  /** Raising communication or social interaction never lowers the module 4
      label. */
  lemma {:induction false} Module4Monotone(c1: int, s1: int, c2: int, s2: int)
    requires c1 <= c2 && s1 <= s2
    ensures Rank(Module4Label(c1, s1)) <= Rank(Module4Label(c2, s2))
  {
  }

  /** The five score fields every instrument step writes. */
  function ScoreWrites(s: AdosScores): (w: Dict)
    ensures forall f :: f in VIRTUAL_FIELDS ==> f in w
  {
    map[
      "communication" := Int(s.communication),
      "social_interaction" := Int(s.social),
      "restricted_repetitive_behavior" := Int(s.rrb),
      "diagnosis" := Str(s.diagnosis),
      "diagnosis_num_nulls" := Int(s.numNulls)]
  }

  // ---------------------------------------------------------------------------
  // Virtual ADOS
  // ---------------------------------------------------------------------------

  /** The five fields the virtual ADOS block takes from its module. */
  const VIRTUAL_FIELDS := ["diagnosis", "diagnosis_num_nulls", "communication", "social_interaction", "restricted_repetitive_behavior"]

  /** What assign_ados_diagnosis needs: an ADOS block whose `module` names a
      present module block holding the five fields. */
  predicate VirtualAdosReady(s: Dict) {
    "ADOS" in s ==>
      && s["ADOS"].Obj? && "module" in s["ADOS"].fields && s["ADOS"].fields["module"].Str?
      && s["ADOS"].fields["module"].s in s && s[s["ADOS"].fields["module"].s].Obj?
      && forall f :: f in VIRTUAL_FIELDS ==> f in s[s["ADOS"].fields["module"].s].fields
  }

  /** The five fields, read from a module block. */
  function VirtualFields(m: Dict): (w: Dict)
    requires forall f :: f in VIRTUAL_FIELDS ==> f in m
  {
    map f | f in VIRTUAL_FIELDS :: m[f]
  }

  /** assign_ados_diagnosis: the ADOS block, if any, takes the five fields of
      the module block it names. */
  function WithVirtualAdos(s: Dict): Dict
    requires VirtualAdosReady(s)
  {
    if "ADOS" !in s then s
    else s["ADOS" := Obj(s["ADOS"].fields + VirtualFields(s[s["ADOS"].fields["module"].s].fields))]
  }

  /** The virtual ADOS step copies exactly the five fields from the module
      named in `ADOS.module`, keeps the other ADOS fields, and changes
      nothing else in the sample. */
  lemma {:induction false} VirtualAdosCopies(s: Dict)
    requires VirtualAdosReady(s)
    ensures WithVirtualAdos(s).Keys == s.Keys
    ensures forall k :: k in s && k != "ADOS" ==> WithVirtualAdos(s)[k] == s[k]
    ensures "ADOS" in s ==>
      var r := WithVirtualAdos(s)["ADOS"];
      var m := s[s["ADOS"].fields["module"].s].fields;
      && r.Obj?
      && (forall f :: f in VIRTUAL_FIELDS ==> f in r.fields && r.fields[f] == m[f])
      && (forall f :: f in s["ADOS"].fields && f !in VIRTUAL_FIELDS ==> f in r.fields && r.fields[f] == s["ADOS"].fields[f])
      && (forall f :: f in r.fields ==> f in s["ADOS"].fields || f in VIRTUAL_FIELDS)
  {
  }

  // ---------------------------------------------------------------------------
  // CPEA
  // ---------------------------------------------------------------------------

  /** The fields assign_cpea_diagnosis reads are present with the types it
      compares. */
  predicate CpeaReady(adir: Dict, ados: Dict) {
    && "diagnosis" in adir && "diagnosis" in ados
    && NumAt(adir, "Q09") && NumAt(adir, "Q10") && NumAt(adir, "Q30")
    && "social_interaction" in adir && adir["social_interaction"].Int?
    && "communication" in adir && adir["communication"].Int?
    && "restricted_repetitive_behavior" in adir && adir["restricted_repetitive_behavior"].Int?
    && "social_interaction" in ados && ados["social_interaction"].Int?
    && "communication" in ados && ados["communication"].Int?
  }

  /** ADOS says Autism or Autism Spectrum. */
  predicate AdosPositive(d: Value) {
    d == Str(AUTISM) || d == Str(AUTISM_SPECTRUM)
  }

  /** The Autism Spectrum rule's four threshold pairs, with the lower
      communication threshold for a non-verbal individual, as the source
      writes them. */
  predicate SpectrumPairsAsWritten(soc: int, com: int, q30: Option<int>) {
    var v := Verbal(q30);
    var nonverbal := v.Some? && !v.value;
    || (soc >= 10 && ((nonverbal && com >= 7) || com >= 8))
    || (soc >= 10 && ((nonverbal && com >= 5) || com >= 6))
    || (soc >= 8 && ((nonverbal && com >= 7) || com >= 8))
    || (soc >= 9 && ((nonverbal && com >= 6) || com >= 7))
  }

  /** assign_cpea_diagnosis over the ADI-R and ADOS blocks. */
  function Cpea(adir: Dict, ados: Dict): (r: string)
    requires CpeaReady(adir, ados)
    ensures r == AUTISM || r == ASPERGERS || r == AUTISM_SPECTRUM || r == CONTROL
  {
    var adirDiagnosis := adir["diagnosis"];
    var adosDiagnosis := ados["diagnosis"];
    var firstWords := Num(adir, "Q09");
    var firstPhrases := Num(adir, "Q10");
    var soc := adir["social_interaction"].i;
    var com := adir["communication"].i;
    var rep := adir["restricted_repetitive_behavior"].i;
    var adosSocCom := ados["social_interaction"].i + ados["communication"].i;
    if adirDiagnosis == Str(AUTISM) && AdosPositive(adosDiagnosis) then AUTISM
    else if (firstWords.None? || firstWords.value <= 24) && (firstPhrases.None? || firstPhrases.value <= 33)
      && adirDiagnosis != Str(AUTISM) && soc >= 10 && rep >= 2
      && (AdosPositive(adosDiagnosis) || adosSocCom >= 4) then ASPERGERS
    else if SpectrumPairsAsWritten(soc, com, Num(adir, "Q30")) && adosDiagnosis == Str(AUTISM_SPECTRUM) then AUTISM_SPECTRUM
    else CONTROL
  }

  /** The threshold pairs as a table: (social, verbal communication,
      non-verbal communication). */
  const SPECTRUM_TABLE: seq<(int, int, int)> := [(10, 8, 7), (10, 6, 5), (8, 8, 7), (9, 7, 6)]

  /** The lower non-verbal thresholds apply only when Q30 is known and
      non-zero; otherwise the verbal ones do. */
  lemma {:induction false} SpectrumPairsTable(soc: int, com: int, q30: Option<int>)
    ensures SpectrumPairsAsWritten(soc, com, q30) <==>
      exists i :: 0 <= i < |SPECTRUM_TABLE| && soc >= SPECTRUM_TABLE[i].0
        && com >= (if q30.Some? && q30.value != 0 then SPECTRUM_TABLE[i].2 else SPECTRUM_TABLE[i].1)
  {
    var nv := q30.Some? && q30.value != 0;
    if SpectrumPairsAsWritten(soc, com, q30) {
      if soc >= 10 && ((nv && com >= 7) || com >= 8) {
        assert soc >= SPECTRUM_TABLE[0].0;
      } else if soc >= 10 && ((nv && com >= 5) || com >= 6) {
        assert soc >= SPECTRUM_TABLE[1].0;
      } else if soc >= 8 && ((nv && com >= 7) || com >= 8) {
        assert soc >= SPECTRUM_TABLE[2].0;
      } else {
        assert soc >= SPECTRUM_TABLE[3].0;
      }
    }
  }

  /** The CPEA priority order: Autism needs both instruments positive with
      ADI-R Autism; Aspergers needs ADI-R not Autism; Autism Spectrum needs
      ADOS Autism Spectrum; Control otherwise. */
  lemma {:induction false} CpeaPriority(adir: Dict, ados: Dict)
    requires CpeaReady(adir, ados)
    ensures Cpea(adir, ados) == AUTISM <==> adir["diagnosis"] == Str(AUTISM) && AdosPositive(ados["diagnosis"])
    ensures Cpea(adir, ados) == ASPERGERS ==> adir["diagnosis"] != Str(AUTISM) && adir["social_interaction"].i >= 10
    ensures Cpea(adir, ados) == AUTISM_SPECTRUM ==> ados["diagnosis"] == Str(AUTISM_SPECTRUM)
    ensures !AdosPositive(ados["diagnosis"]) && ados["social_interaction"].i + ados["communication"].i < 4 ==>
              Cpea(adir, ados) == CONTROL
  {
  }

  /** assign_cpea_adjusted_diagnosis: None without both blocks; otherwise the
      CPEA value, except that Control becomes Suspected Control unless both
      instruments say Control. */
  function AdjustedCpea(s: Dict): (r: Value)
    requires "ADIR" in s && "ADOS" in s ==>
      "cpea_diagnosis" in s && s["ADIR"].Obj? && s["ADOS"].Obj?
      && "diagnosis" in s["ADIR"].fields && "diagnosis" in s["ADOS"].fields
    ensures !("ADIR" in s && "ADOS" in s) ==> r == Null
    ensures "ADIR" in s && "ADOS" in s ==>
      r == (if s["cpea_diagnosis"] == Str(CONTROL)
              && !(s["ADIR"].fields["diagnosis"] == Str(CONTROL) && s["ADOS"].fields["diagnosis"] == Str(CONTROL))
            then Str(SUSPECTED_CONTROL) else s["cpea_diagnosis"])
  {
    if "ADIR" in s && "ADOS" in s then
      var cpea := s["cpea_diagnosis"];
      if cpea == Str(CONTROL) then
        if s["ADIR"].fields["diagnosis"] == Str(CONTROL) && s["ADOS"].fields["diagnosis"] == Str(CONTROL)
        then Str(CONTROL) else Str(SUSPECTED_CONTROL)
      else cpea
    else Null
  }

  // ---------------------------------------------------------------------------
  // Overall diagnosis
  // ---------------------------------------------------------------------------

  /** A diagnosis that counts as an autism signal. */
  predicate Positive(d: Value) {
    d == Str(AUTISM) || d == Str(AUTISM_SPECTRUM) || d == Str(ASPERGERS)
  }

  /** `None if key not in sample else sample[key]['diagnosis']`. */
  function BlockDiagnosis(s: Dict, key: string): Value
    requires key in s ==> s[key].Obj? && "diagnosis" in s[key].fields
  {
    if key in s then s[key].fields["diagnosis"] else Null
  }

  const DIAGNOSED_BLOCKS := ["ADIR", "ADOS_Module1", "ADOS_Module2", "ADOS_Module3", "ADOS_Module4", "ADOS"]

  predicate OverallReady(s: Dict) {
    && "cpea_diagnosis" in s
    && forall k :: k in DIAGNOSED_BLOCKS && k in s ==> s[k].Obj? && "diagnosis" in s[k].fields
  }

  /** The seven diagnoses assign_diagnosis looks at, in the source's order. */
  function Signals(s: Dict): (d: seq<Value>)
    requires OverallReady(s)
    ensures |d| == 7
  {
    [BlockDiagnosis(s, "ADIR"), BlockDiagnosis(s, "ADOS_Module1"), BlockDiagnosis(s, "ADOS_Module2"),
     BlockDiagnosis(s, "ADOS_Module3"), BlockDiagnosis(s, "ADOS_Module4"), BlockDiagnosis(s, "ADOS"),
     s["cpea_diagnosis"]]
  }

  /** assign_diagnosis over the list of signals. */
  function Overall(diags: seq<Value>): Value {
    if Str(AUTISM) in diags || Str(AUTISM_SPECTRUM) in diags || Str(ASPERGERS) in diags then Str(AUTISM)
    else if Str(CONTROL) in diags then Str(CONTROL)
    else Null
  }

  /** The any-signal rule: Autism iff some signal is positive; Control iff
      none is positive and some is Control; None iff neither. */
  lemma {:induction false} OverallRule(diags: seq<Value>)
    ensures Overall(diags) == Str(AUTISM) <==> exists i :: 0 <= i < |diags| && Positive(diags[i])
    ensures Overall(diags) == Str(CONTROL) <==>
      (forall i :: 0 <= i < |diags| ==> !Positive(diags[i])) && exists i :: 0 <= i < |diags| && diags[i] == Str(CONTROL)
    ensures Overall(diags) == Null <==>
      forall i :: 0 <= i < |diags| ==> !Positive(diags[i]) && diags[i] != Str(CONTROL)
  {
    if Overall(diags) == Str(AUTISM) {
      var x :| x in diags && Positive(x);
      var i :| 0 <= i < |diags| && diags[i] == x;
    }
  }

  // ---------------------------------------------------------------------------
  // Clinical text
  // ---------------------------------------------------------------------------

  datatype ClinicalOutcome = Classified(diagnosis: Value) | Unmatched

  const AFFECTED_KEYWORDS := ["proband", "broadspectrum", "asd", "affected sibling", "ad"]
  const CONTROL_KEYWORDS := ["nqa", "not met", "control"]

  /** assign_clinical_diagnosis on a non-null raw text: lower-cased (not
      trimmed), then the first matching rule wins. */
  function ClassifyClinical(raw: string): (r: ClinicalOutcome)
    ensures r.Classified? && r.diagnosis == Str(CONTROL) ==> Lower(raw) in CONTROL_KEYWORDS
    ensures Contains(Lower(raw), "aut") ==> r == Classified(Str(AUTISM))
  {
    var cd := Lower(raw);
    if cd == "" then Classified(Null)
    else if Contains(cd, "aut") || Contains(cd, "299") || cd in AFFECTED_KEYWORDS then Classified(Str(AUTISM))
    else if Contains(cd, "asperger") then Classified(Str(ASPERGER))
    else if cd in CONTROL_KEYWORDS then Classified(Str(CONTROL))
    else if Contains(cd, "pdd") || Contains(cd, "nos") || Contains(cd, "pervasive developmental disorder") then Classified(Str(PDD_NOS))
    else Unmatched
  }

  /** Rule order: an Asperger text wins over the later rules, and the empty
      text gives None. */
  lemma {:induction false} ClinicalRuleOrder(raw: string)
    ensures raw == "" ==> ClassifyClinical(raw) == Classified(Null)
    ensures Contains(Lower(raw), "asperger") ==>
      ClassifyClinical(raw) == Classified(Str(AUTISM)) || ClassifyClinical(raw) == Classified(Str(ASPERGER))
    ensures ClassifyClinical(raw) == Classified(Str(PDD_NOS)) ==>
      !Contains(Lower(raw), "aut") && !Contains(Lower(raw), "asperger") && Lower(raw) !in CONTROL_KEYWORDS
  {
  }

  /** Control needs an exact keyword: the text is not trimmed, so a text
      starting with white space (" Control") is never Control. */
  lemma {:induction false} ClinicalControlIsExact(raw: string)
    requires |raw| > 0 && IsSpace(raw[0])
    ensures ClassifyClinical(raw) != Classified(Str(CONTROL))
  {
    assert Lower(raw)[0] == raw[0];
  }

  /** "nos" is matched as a substring, and "diagnosis" contains it, so a
      text mentioning a diagnosis (say "no diagnosis") is always
      classified, never left unmatched. */
  lemma {:induction false} ClinicalNosIsSubstring(raw: string)
    requires Contains(Lower(raw), "diagnosis")
    ensures ClassifyClinical(raw).Classified?
  {
    DiagnosisHasNos();
    ContainsTransitive(Lower(raw), "diagnosis", "nos");
    NosClassified(raw);
  }

  /** The word "diagnosis" contains "nos". */
  lemma {:induction false} DiagnosisHasNos()
    ensures Contains("diagnosis", "nos")
  {
    assert OccursAt("diagnosis", "nos", 4);
  }

  /** A text containing "nos" reaches the PDD-NOS rule if no earlier rule
      matched. */
  lemma {:induction false} NosClassified(raw: string)
    requires Contains(Lower(raw), "nos")
    ensures ClassifyClinical(raw).Classified?
  {
  }

  // ---------------------------------------------------------------------------
  // The steps of assign_all_diagnoses on a sample dict
  // ---------------------------------------------------------------------------

  /** The four ADOS module block names, in the order they are scored. */
  const MODULES := ["ADOS_Module1", "ADOS_Module2", "ADOS_Module3", "ADOS_Module4"]

  predicate IsModule(name: string) {
    name in MODULES
  }

  /** Which module algorithm applies to a module block. */
  predicate ModuleReadable(name: string, b: Dict) {
    if name == MODULES[0] then Module1Readable(b)
    else if name == MODULES[1] then Module2Readable(b)
    else if name == MODULES[2] then Module3Readable(b)
    else Module4Readable(b)
  }

  function ScoreModule(name: string, b: Dict): AdosScores
    requires ModuleReadable(name, b)
  {
    if name == MODULES[0] then ScoreModule1(b)
    else if name == MODULES[1] then ScoreModule2(b)
    else if name == MODULES[2] then ScoreModule3(b)
    else ScoreModule4(b)
  }

  /** A module block with its five scores written into it. */
  function ScoredModuleBlock(name: string, b: Dict): Dict
    requires ModuleReadable(name, b)
  {
    b + ScoreWrites(ScoreModule(name, b))
  }

  /** A scored instrument block: holds the five fields the later steps read,
      the totals CPEA compares being integers. */
  predicate Scored(v: Value) {
    && v.Obj?
    && (forall f :: f in VIRTUAL_FIELDS ==> f in v.fields)
    && v.fields["social_interaction"].Int? && v.fields["communication"].Int?
    && v.fields["restricted_repetitive_behavior"].Int?
  }

  /** A module block, once scored, holds the five fields with integer
      totals and the computed diagnosis, and keeps the items it was scored
      from. */
  lemma {:induction false} ModuleBlockScored(name: string, b: Dict)
    requires ModuleReadable(name, b)
    ensures Scored(Obj(ScoredModuleBlock(name, b)))
    ensures ScoredModuleBlock(name, b)["diagnosis"] == Str(ScoreModule(name, b).diagnosis)
    ensures b.Keys <= ScoredModuleBlock(name, b).Keys
  {
    ScoreWritesScored(b, map[], ScoreModule(name, b));
    assert map[] + ScoreWrites(ScoreModule(name, b)) == ScoreWrites(ScoreModule(name, b));
  }

  predicate AdirStepReady(s: Dict) {
    "ADIR" in s ==> s["ADIR"].Obj? && AdirReadable(s["ADIR"].fields)
  }

  /** assign_adir_diagnosis on a sample: only when it has an ADIR block; a
      block the algorithm cannot read stops the run. */
  function AdirStep(s: Dict): Result<Dict> {
    if !AdirStepReady(s) then Err("ADIR: missing or non-numeric item")
    else if "ADIR" in s then Ok(s["ADIR" := Obj(ScoredAdirBlock(s["ADIR"].fields))])
    else Ok(s)
  }

  /** The ADI-R step fails exactly on an unreadable block. */
  lemma {:induction false} AdirStepFails(s: Dict)
    ensures AdirStep(s).Ok? <==> AdirStepReady(s)
  {
  }

  /** The ADI-R step changes nothing but the ADI-R block... */
  lemma {:induction false} AdirStepFrame(s: Dict)
    requires AdirStepReady(s)
    ensures AdirStep(s).Ok?
    ensures AdirStep(s).value.Keys == s.Keys
    ensures forall k :: k in s && k != "ADIR" ==> AdirStep(s).value[k] == s[k]
  {
    if "ADIR" in s {
      PutFrame(s, "ADIR", Obj(ScoredAdirBlock(s["ADIR"].fields)));
    }
  }

  /** Replacing one present field of a dict keeps its keys and every other
      field. */
  lemma {:induction false} PutFrame(s: Dict, key: string, v: Value)
    requires key in s
    ensures s[key := v].Keys == s.Keys
    ensures forall k :: k in s && k != key ==> s[key := v][k] == s[k]
  {
  }

  /** ... which it scores, keeping it readable. */
  lemma {:induction false} AdirStepScores(s: Dict)
    requires AdirStepReady(s) && "ADIR" in s
    ensures AdirStep(s).Ok?
    ensures Scored(AdirStep(s).value["ADIR"]) && AdirReadable(AdirStep(s).value["ADIR"].fields)
    ensures AdirStep(s).value["ADIR"].fields["diagnosis"] == Str(ScoreAdir(s["ADIR"].fields).diagnosis)
  {
    AdirStaysReadable(s["ADIR"].fields);
    AdirBlockScored(s["ADIR"].fields);
  }

  predicate ModuleStepReady(s: Dict, name: string) {
    name in s ==> s[name].Obj? && ModuleReadable(name, s[name].fields)
  }

  /** One of assign_ados1_diagnosis .. assign_ados4_diagnosis on a sample:
      only when it has that module block. */
  function ModuleStep(s: Dict, name: string): Result<Dict> {
    if !ModuleStepReady(s, name) then Err(name + ": missing or non-numeric item")
    else if name in s then Ok(s[name := Obj(ScoredModuleBlock(name, s[name].fields))])
    else Ok(s)
  }

  /** A module step fails exactly on an unreadable block. */
  lemma {:induction false} ModuleStepFails(s: Dict, name: string)
    ensures ModuleStep(s, name).Ok? <==> ModuleStepReady(s, name)
  {
  }

  /** A module step changes nothing but its own block... */
  lemma {:induction false} ModuleStepFrame(s: Dict, name: string)
    requires ModuleStepReady(s, name)
    ensures ModuleStep(s, name).Ok?
    ensures ModuleStep(s, name).value.Keys == s.Keys
    ensures forall k :: k in s && k != name ==> ModuleStep(s, name).value[k] == s[k]
  {
  }

  /** ... which it scores from that block alone. */
  lemma {:induction false} ModuleStepScores(s: Dict, name: string)
    requires ModuleStepReady(s, name) && name in s
    ensures ModuleStep(s, name).Ok?
    ensures Scored(ModuleStep(s, name).value[name])
    ensures ModuleStep(s, name).value[name].fields["diagnosis"] == Str(ScoreModule(name, s[name].fields).diagnosis)
  {
    ModuleBlockScored(name, s[name].fields);
  }

  /** assign_ados_diagnosis on a sample. */
  function AdosStep(s: Dict): Result<Dict> {
    if VirtualAdosReady(s) then Ok(WithVirtualAdos(s)) else Err("ADOS: module block missing")
  }

  predicate CpeaStepReady(s: Dict) {
    "ADIR" in s && "ADOS" in s ==> s["ADIR"].Obj? && s["ADOS"].Obj? && CpeaReady(s["ADIR"].fields, s["ADOS"].fields)
  }

  /** assign_cpea_diagnosis on a sample: only when both ADIR and ADOS exist. */
  function CpeaStep(s: Dict): Result<Dict> {
    if !CpeaStepReady(s) then Err("CPEA: missing or mistyped field")
    else if "ADIR" in s && "ADOS" in s then Ok(s["cpea_diagnosis" := Str(Cpea(s["ADIR"].fields, s["ADOS"].fields))])
    else Ok(s)
  }

  predicate AdjustedStepReady(s: Dict) {
    "ADIR" in s && "ADOS" in s ==>
      "cpea_diagnosis" in s && s["ADIR"].Obj? && s["ADOS"].Obj?
      && "diagnosis" in s["ADIR"].fields && "diagnosis" in s["ADOS"].fields
  }

  /** assign_cpea_adjusted_diagnosis on a sample. */
  function AdjustedStep(s: Dict): Result<Dict> {
    if AdjustedStepReady(s) then Ok(s["cpea_adjusted_diagnosis" := AdjustedCpea(s)])
    else Err("CPEA adjusted: missing field")
  }

  /** assign_diagnosis on a sample. */
  function OverallStep(s: Dict): Result<Dict> {
    if OverallReady(s) then Ok(s["diagnosis" := Overall(Signals(s))])
    else Err("diagnosis: missing field")
  }

  predicate ClinicalStepReady(s: Dict) {
    "clinical_diagnosis_raw" in s && (s["clinical_diagnosis_raw"].Null? || s["clinical_diagnosis_raw"].Str?)
  }

  /** assign_clinical_diagnosis on a sample: a null raw text or an unmatched
      one leaves the sample as it was. */
  function ClinicalStep(s: Dict): Result<Dict> {
    if !ClinicalStepReady(s) then Err("clinical_diagnosis_raw: missing or not a string")
    else
      var raw := s["clinical_diagnosis_raw"];
      if raw.Str? && ClassifyClinical(raw.s).Classified? then Ok(s["clinical_diagnosis" := ClassifyClinical(raw.s).diagnosis])
      else Ok(s)
  }

  /** The four module steps, in the source's order. */
  function ScoreModules(s1: Dict): Result<Dict> {
    var s2 :- ModuleStep(s1, "ADOS_Module1");
    var s3 :- ModuleStep(s2, "ADOS_Module2");
    var s4 :- ModuleStep(s3, "ADOS_Module3");
    ModuleStep(s4, "ADOS_Module4")
  }

  /** The sample after every step up to the CPEA-adjusted diagnosis; the
      first step that fails stops the run. */
  function ThroughAdjusted(s: Dict): Result<Dict> {
    var s1 :- AdirStep(s);
    var s5 :- ScoreModules(s1);
    var s6 :- AdosStep(s5);
    var s7 :- CpeaStep(s6);
    AdjustedStep(s7)
  }

  /** assign_all_diagnoses as a function of the sample. */
  function AssignAll(s: Dict): Result<Dict> {
    var s8 :- ThroughAdjusted(s);
    var s9 :- OverallStep(s8);
    ClinicalStep(s9)
  }

  /** The sample's top-level diagnosis is Autism exactly when one of the six
      instrument diagnoses or the CPEA diagnosis is positive, and Control
      exactly when none is positive and one is Control. */
  lemma {:induction false} AssignAllOverall(s: Dict)
    requires AssignAll(s).Ok?
    ensures ThroughAdjusted(s).Ok? && OverallReady(ThroughAdjusted(s).value)
    ensures var r := AssignAll(s).value;
      var signals := Signals(ThroughAdjusted(s).value);
      && "diagnosis" in r
      && (r["diagnosis"] == Str(AUTISM) <==> exists i :: 0 <= i < 7 && Positive(signals[i]))
      && (r["diagnosis"] == Str(CONTROL) <==>
            (forall i :: 0 <= i < 7 ==> !Positive(signals[i])) && exists i :: 0 <= i < 7 && signals[i] == Str(CONTROL))
  {
    var t := ThroughAdjusted(s).value;
    OverallRule(Signals(t));
  }

  // ---------------------------------------------------------------------------
  // When assign_all_diagnoses runs through
  // ---------------------------------------------------------------------------

  /** The parts of a sample the post-scoring steps need, apart from the
      instrument blocks themselves: an ADOS block naming one of the four
      module blocks of the sample, a `cpea_diagnosis` field unless the CPEA
      step writes one, and a raw clinical text that is a string or None. */
  predicate TailReady(s: Dict) {
    && ("ADOS" in s ==>
          && s["ADOS"].Obj? && "module" in s["ADOS"].fields && s["ADOS"].fields["module"].Str?
          && IsModule(s["ADOS"].fields["module"].s) && s["ADOS"].fields["module"].s in s)
    && ("cpea_diagnosis" in s || ("ADIR" in s && "ADOS" in s))
    && ClinicalStepReady(s)
  }

  /** What assign_all_diagnoses needs of a sample: readable instrument
      blocks and the fields of TailReady. */
  predicate AllReady(s: Dict) {
    && AdirStepReady(s)
    && (forall i :: 0 <= i < |MODULES| ==> ModuleStepReady(s, MODULES[i]))
    && TailReady(s)
  }

  /** Progress through the module steps: modules from `i` on still to be
      scored, those before `i` scored, the rest as it was. */
  predicate ModulesFrom(t: Dict, i: nat) {
    && (forall j :: i <= j < |MODULES| ==> ModuleStepReady(t, MODULES[j]))
    && (forall j :: 0 <= j < i && j < |MODULES| && MODULES[j] in t ==> Scored(t[MODULES[j]]))
    && ("ADIR" in t ==> Scored(t["ADIR"]) && AdirReadable(t["ADIR"].fields))
    && TailReady(t)
  }

  /** Putting a scored, readable ADI-R block into a ready sample leaves
      the module steps to do. */
  lemma {:induction false} PutAdir(s: Dict, x: Value)
    requires AllReady(s) && Scored(x) && x.Obj? && AdirReadable(x.fields) && "ADIR" in s
    ensures ModulesFrom(s["ADIR" := x], 0)
  {
    assert "ADIR" !in MODULES && "ADOS" != "ADIR" && "clinical_diagnosis_raw" != "ADIR";
  }

  lemma {:induction false} AdirStage(s: Dict)
    requires AllReady(s)
    ensures AdirStep(s).Ok? && ModulesFrom(AdirStep(s).value, 0)
  {
    if "ADIR" in s {
      AdirStepScores(s);
      PutAdir(s, AdirStep(s).value["ADIR"]);
    }
  }

  /** Putting a scored module block into a sample part way through the
      module steps moves it one step on. */
  lemma {:induction false} PutModule(t: Dict, i: nat, x: Value)
    requires i < |MODULES| && ModulesFrom(t, i) && Scored(x) && MODULES[i] in t
    ensures ModulesFrom(t[MODULES[i] := x], i + 1)
  {
    assert forall j :: 0 <= j < |MODULES| && j != i ==> MODULES[j] != MODULES[i];
    assert "ADIR" !in MODULES && "ADOS" !in MODULES && "clinical_diagnosis_raw" !in MODULES;
  }

  lemma {:induction false} ModuleStage(t: Dict, i: nat)
    requires i < |MODULES| && ModulesFrom(t, i)
    ensures ModuleStep(t, MODULES[i]).Ok? && ModulesFrom(ModuleStep(t, MODULES[i]).value, i + 1)
  {
    if MODULES[i] in t {
      ModuleStepScores(t, MODULES[i]);
      PutModule(t, i, ModuleStep(t, MODULES[i]).value[MODULES[i]]);
    } else {
      assert ModuleStep(t, MODULES[i]).value == t;
    }
  }

  /** Once the instruments are scored, the virtual ADOS step runs, and the
      CPEA and later steps have what they read. */
  predicate CpeaStageReady(t: Dict) {
    && CpeaStepReady(t)
    && ("cpea_diagnosis" in t || ("ADIR" in t && "ADOS" in t))
    && (forall k :: k in DIAGNOSED_BLOCKS && k in t ==> t[k].Obj? && "diagnosis" in t[k].fields)
    && ClinicalStepReady(t)
  }

  /** After the module steps the ADOS block's module holds the five
      fields. */
  lemma {:induction false} AdosStageReady(u: Dict)
    requires ModulesFrom(u, |MODULES|)
    ensures VirtualAdosReady(u)
  {
    if "ADOS" in u {
      var name := u["ADOS"].fields["module"].s;
      var i :| 0 <= i < |MODULES| && MODULES[i] == name;
      assert Scored(u[name]);
    }
  }

  /** The fields of a scored block that CPEA reads. */
  lemma {:induction false} ScoredFields(v: Value)
    requires Scored(v)
    ensures "diagnosis" in v.fields
    ensures "social_interaction" in v.fields && v.fields["social_interaction"].Int?
    ensures "communication" in v.fields && v.fields["communication"].Int?
    ensures "restricted_repetitive_behavior" in v.fields && v.fields["restricted_repetitive_behavior"].Int?
  {
    assert "diagnosis" == VIRTUAL_FIELDS[0] && "communication" == VIRTUAL_FIELDS[2];
    assert "social_interaction" == VIRTUAL_FIELDS[3] && "restricted_repetitive_behavior" == VIRTUAL_FIELDS[4];
  }

  /** The ADI-R items CPEA reads. */
  lemma {:induction false} AdirCpeaFields(b: Dict)
    requires AdirReadable(b)
    ensures NumAt(b, "Q09") && NumAt(b, "Q10") && NumAt(b, "Q30")
  {
    assert "Q09" == D_ITEMS[1] && "Q10" == D_ITEMS[2];
  }

  /** What the virtual ADOS step leaves: CPEA's fields ... */
  lemma {:induction false} AdosStageCpea(u: Dict)
    requires ModulesFrom(u, |MODULES|) && VirtualAdosReady(u)
    ensures CpeaStepReady(WithVirtualAdos(u))
  {
    VirtualAdosCopies(u);
    var t := WithVirtualAdos(u);
    if "ADIR" in t && "ADOS" in t {
      var name := u["ADOS"].fields["module"].s;
      var i :| 0 <= i < |MODULES| && MODULES[i] == name;
      ScoredFields(u[name]);
      ScoredFields(u["ADIR"]);
      AdirCpeaFields(u["ADIR"].fields);
      assert t["ADIR"] == u["ADIR"];
      ScoredFields(t["ADOS"]);
    }
  }

  /** ... and a diagnosis in every instrument block. */
  lemma {:induction false} AdosStageBlocks(u: Dict)
    requires ModulesFrom(u, |MODULES|) && VirtualAdosReady(u)
    ensures forall k :: k in DIAGNOSED_BLOCKS && k in WithVirtualAdos(u) ==>
      WithVirtualAdos(u)[k].Obj? && "diagnosis" in WithVirtualAdos(u)[k].fields
  {
    VirtualAdosCopies(u);
    var t := WithVirtualAdos(u);
    assert "diagnosis" == VIRTUAL_FIELDS[0];
    forall k | k in DIAGNOSED_BLOCKS && k in t ensures t[k].Obj? && "diagnosis" in t[k].fields {
      var j :| 0 <= j < |DIAGNOSED_BLOCKS| && DIAGNOSED_BLOCKS[j] == k;
      if j == 0 {
        ScoredFields(u[k]);
      } else if j < 5 {
        assert MODULES[j - 1] == k;
        ScoredFields(u[k]);
      }
    }
  }

  lemma {:induction false} AdosStage(u: Dict)
    requires ModulesFrom(u, |MODULES|)
    ensures AdosStep(u).Ok? && CpeaStageReady(AdosStep(u).value)
  {
    AdosStageReady(u);
    AdosStageCpea(u);
    AdosStageBlocks(u);
    VirtualAdosCopies(u);
  }

  lemma {:induction false} CpeaStages(t: Dict)
    requires CpeaStageReady(t)
    ensures CpeaStep(t).Ok? && AdjustedStep(CpeaStep(t).value).Ok?
    ensures OverallReady(AdjustedStep(CpeaStep(t).value).value)
    ensures ClinicalStepReady(AdjustedStep(CpeaStep(t).value).value)
  {
    assert "cpea_diagnosis" !in DIAGNOSED_BLOCKS && "cpea_adjusted_diagnosis" !in DIAGNOSED_BLOCKS;
  }

  lemma {:induction false} ModulesStage(s1: Dict)
    requires ModulesFrom(s1, 0)
    ensures ScoreModules(s1).Ok? && ModulesFrom(ScoreModules(s1).value, |MODULES|)
  {
    ModuleStage(s1, 0);
    var s2 := ModuleStep(s1, "ADOS_Module1").value;
    ModuleStage(s2, 1);
    var s3 := ModuleStep(s2, "ADOS_Module2").value;
    ModuleStage(s3, 2);
    var s4 := ModuleStep(s3, "ADOS_Module3").value;
    ModuleStage(s4, 3);
  }

  /** A sample with readable instrument blocks and the fields of TailReady
      goes through assign_all_diagnoses without an error. */
  lemma {:induction false} AssignAllSucceeds(s: Dict)
    requires AllReady(s)
    ensures AssignAll(s).Ok?
  {
    AdirStage(s);
    var s1 := AdirStep(s).value;
    ModulesStage(s1);
    var s5 := ScoreModules(s1).value;
    AdosStage(s5);
    var s6 := AdosStep(s5).value;
    CpeaStages(s6);
    assert "diagnosis" != "clinical_diagnosis_raw";
  }

  // ---------------------------------------------------------------------------
  // The sample, updated in place
  // ---------------------------------------------------------------------------

  /** A method's outcome against the step function it performs: it reports
      success exactly when the step succeeds, and then holds the step's
      result; a failing step leaves the sample as it was. */
  predicate Performed(before: Dict, after: Dict, ok: bool, step: Result<Dict>) {
    ok == step.Ok? && after == (if step.Ok? then step.value else before)
  }

  /** A sample dict of the aggregated phenotype data; each method is one
      `assign_*` function of the source writing into it, returning false
      where the source would raise. */
  class Sample {
    var fields: Dict

    constructor (fields: Dict)
      ensures this.fields == fields
    {
      this.fields := fields;
    }

    method Perform(step: Result<Dict>) returns (ok: bool)
      modifies this
      ensures Performed(old(fields), fields, ok, step)
    {
      ok := step.Ok?;
      if ok {
        fields := step.value;
      }
    }

    method AssignAdirDiagnosis() returns (ok: bool)
      modifies this
      ensures Performed(old(fields), fields, ok, AdirStep(old(fields)))
    {
      ok := Perform(AdirStep(fields));
    }

    method AssignModuleDiagnosis(name: string) returns (ok: bool)
      modifies this
      ensures Performed(old(fields), fields, ok, ModuleStep(old(fields), name))
    {
      ok := Perform(ModuleStep(fields, name));
    }

    method AssignAdosDiagnosis() returns (ok: bool)
      modifies this
      ensures Performed(old(fields), fields, ok, AdosStep(old(fields)))
    {
      ok := Perform(AdosStep(fields));
    }

    method AssignCpeaDiagnosis() returns (ok: bool)
      modifies this
      ensures Performed(old(fields), fields, ok, CpeaStep(old(fields)))
    {
      ok := Perform(CpeaStep(fields));
    }

    method AssignCpeaAdjustedDiagnosis() returns (ok: bool)
      modifies this
      ensures Performed(old(fields), fields, ok, AdjustedStep(old(fields)))
    {
      ok := Perform(AdjustedStep(fields));
    }

    method AssignDiagnosis() returns (ok: bool)
      modifies this
      ensures Performed(old(fields), fields, ok, OverallStep(old(fields)))
    {
      ok := Perform(OverallStep(fields));
    }

    method AssignClinicalDiagnosis() returns (ok: bool)
      modifies this
      ensures Performed(old(fields), fields, ok, ClinicalStep(old(fields)))
    {
      ok := Perform(ClinicalStep(fields));
    }

    /** assign_all_diagnoses: the steps in the source's order; the first
        failing step stops, the earlier ones staying applied. */
    method AssignAllDiagnoses() returns (ok: bool)
      modifies this
      ensures ok == AssignAll(old(fields)).Ok?
      ensures ok ==> fields == AssignAll(old(fields)).value
    {
      ok := AssignAdirDiagnosis();
      if !ok { return; }
      ok := AssignModuleDiagnosis("ADOS_Module1");
      if !ok { return; }
      ok := AssignModuleDiagnosis("ADOS_Module2");
      if !ok { return; }
      ok := AssignModuleDiagnosis("ADOS_Module3");
      if !ok { return; }
      ok := AssignModuleDiagnosis("ADOS_Module4");
      if !ok { return; }
      assert fields == ScoreModules(AdirStep(old(fields)).value).value;
      ok := AssignAdosDiagnosis();
      if !ok { return; }
      ok := AssignCpeaDiagnosis();
      if !ok { return; }
      ok := AssignCpeaAdjustedDiagnosis();
      if !ok { return; }
      ok := AssignDiagnosis();
      if !ok { return; }
      ok := AssignClinicalDiagnosis();
    }
  }
}
