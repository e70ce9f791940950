/** The answer recoder and the record fold that gathers every source's rows
    into one sample per (dataset, identifier): the coded-value sets derived
    from the schema, the exception, missing-data and bad-sample tables, the
    per-item split into an ordinal and a coded value, the first-non-null
    merge of demographics, the replace-when-more-recent rule for instrument
    blocks, the Medical History flags and the final removal and sort.

    Rows arrive already cut into cells, with the per-source adapters
    (`lambdas`) applied: a `RowFields` holds what the adapters return. */
module AggregatePhenotype {
  import opened Wrappers
  import opened Json
  import opened Strings

  // ---------------------------------------------------------------------------
  // Coded-value sets from the schema enums
  // ---------------------------------------------------------------------------

  /** For every instrument, the coded set of each item, or None when the item
      has no coded counterpart. */
  type Codes = map<string, Option<set<Value>>>
  type Codebook = map<string, Codes>

  /** A schema property that is an item with a possible `a` counterpart. */
  predicate IsItemFeature(f: string) {
    StartsWith(f, "Q") && !EndsWith(f, "a")
  }

  /** Python's `xs.remove(x)`: drops the first occurrence, and raises
      ValueError when there is none. */
  function RemoveFirst(xs: seq<Value>, x: Value): (r: Result<seq<Value>>)
    ensures r.Ok? <==> x in xs
    ensures r.Ok? ==> multiset(r.value) == multiset(xs) - multiset{x}
  {
    if |xs| == 0 then Err("ValueError")
    else if xs[0] == x then
      assert xs == [xs[0]] + xs[1..];
      Ok(xs[1..])
    else
      var rest :- RemoveFirst(xs[1..], x);
      assert xs == [xs[0]] + xs[1..];
      Ok([xs[0]] + rest)
  }

  /** How many copies of `v` the schema enum spends on the reserved entries
      None and 0. */
  function Reserved(v: Value): nat {
    if v == Null || v == Int(0) then 1 else 0
  }

  /** The enum with one None and one 0 removed, as a set. */
  function CodedSet(enum: seq<Value>): (r: Result<set<Value>>)
    ensures r.Ok? <==> Null in enum && Int(0) in enum
  {
    var a :- RemoveFirst(enum, Null);
    assert multiset(a)[Int(0)] == multiset(enum)[Int(0)];
    var b :- RemoveFirst(a, Int(0));
    Ok(set v | v in b)
  }

  /** A value is coded iff the enum holds more copies of it than the
      reserved entries use up. */
  lemma {:induction false} CodedSetMembers(enum: seq<Value>, v: Value)
    requires CodedSet(enum).Ok?
    ensures v in CodedSet(enum).value <==> multiset(enum)[v] > Reserved(v)
  {
    var a := RemoveFirst(enum, Null).value;
    var b := RemoveFirst(a, Int(0)).value;
    assert CodedSet(enum).value == set w | w in b;
    assert multiset(b)[v] == multiset(enum)[v] - Reserved(v);
  }

  /** The enum a schema builder writes for a coded item, `[None, 0] + coded`,
      gives back exactly the coded options. */
  lemma {:induction false} CodedSetOfSchemaEnum(coded: seq<Value>)
    requires Null !in coded && Int(0) !in coded
    ensures CodedSet([Null, Int(0)] + coded) == Ok(set v | v in coded)
  {
    var e := [Null, Int(0)] + coded;
    assert e[0] == Null && e[1] == Int(0);
    var a := RemoveFirst(e, Null).value;
    assert a == [Int(0)] + coded;
    var b := RemoveFirst(a, Int(0)).value;
    assert b == coded;
  }

  /** `prop['enum']` of a schema property, a list. */
  function EnumOf(prop: Value): (r: Result<seq<Value>>)
    ensures r.Ok? <==> prop.Obj? && "enum" in prop.fields && prop.fields["enum"].Arr?
  {
    if prop.Obj? && "enum" in prop.fields && prop.fields["enum"].Arr? then Ok(prop.fields["enum"].items)
    else Err("KeyError")
  }

  /** The coded set of one item feature: from its `a` counterpart when the
      schema has one, None otherwise. */
  function CodeFor(props: map<string, Value>, f: string): Result<Option<set<Value>>> {
    if f + "a" in props then
      var e :- EnumOf(props[f + "a"]);
      var c :- CodedSet(e);
      Ok(Some(c))
    else Ok(None)
  }

  predicate CodesDerivable(props: map<string, Value>) {
    forall f :: f in props && IsItemFeature(f) ==> CodeFor(props, f).Ok?
  }

  /** The codes of one instrument: one entry per item feature. */
  function CodesOf(props: map<string, Value>): (c: Codes)
    requires CodesDerivable(props)
  {
    map f | f in props && IsItemFeature(f) :: CodeFor(props, f).value
  }

  /** Which features get an entry, and when it is a set. */
  lemma {:induction false} CodesOfShape(props: map<string, Value>, f: string)
    requires CodesDerivable(props)
    ensures f in CodesOf(props) <==> f in props && StartsWith(f, "Q") && !EndsWith(f, "a")
    ensures f in CodesOf(props) ==> (CodesOf(props)[f].Some? <==> f + "a" in props)
  {
  }

  /** The entry of an item with a coded counterpart holds the values the
      counterpart's enum lists beyond one None and one 0. */
  lemma {:induction false} CodesOfMembers(props: map<string, Value>, f: string, v: Value)
    requires CodesDerivable(props)
    requires f in CodesOf(props) && CodesOf(props)[f].Some?
    ensures v in CodesOf(props)[f].value <==> multiset(EnumOf(props[f + "a"]).value)[v] > Reserved(v)
  {
    CodedSetMembers(EnumOf(props[f + "a"]).value, v);
  }

  /** `definitions[instrument]['properties']` of the schema. */
  function PropertiesOf(def: Value): (r: Result<map<string, Value>>)
    ensures r.Ok? <==> def.Obj? && "properties" in def.fields && def.fields["properties"].Obj?
  {
    if def.Obj? && "properties" in def.fields && def.fields["properties"].Obj? then
      Ok(def.fields["properties"].fields)
    else Err("KeyError")
  }

  /** One instrument's definition has a properties map whose codes can be
      derived. */
  predicate DefinitionDerivable(def: Value) {
    PropertiesOf(def).Ok? && CodesDerivable(PropertiesOf(def).value)
  }

  function CodesOfDefinition(def: Value): Codes
    requires DefinitionDerivable(def)
  {
    CodesOf(PropertiesOf(def).value)
  }

  /** The inner loop of the codes derivation, over the properties of one
      instrument in any key order. */
  method DeriveCodes(def: Value) returns (r: Result<Codes>)
    ensures r.Ok? <==> DefinitionDerivable(def)
    ensures r.Ok? ==> r.value == CodesOfDefinition(def)
  {
    var p := PropertiesOf(def);
    if p.Err? {
      return Err(p.message);
    }
    var props := p.value;
    var todo := props.Keys;
    var done: set<string> := {};
    var acc: Codes := map[];
    while todo != {}
      invariant done + todo == props.Keys && done !! todo
      invariant forall f :: f in done && IsItemFeature(f) ==> CodeFor(props, f).Ok?
      invariant acc == map f | f in done && IsItemFeature(f) :: CodeFor(props, f).value
      decreases todo
    {
      var f :| f in todo;
      if IsItemFeature(f) {
        var c := CodeFor(props, f);
        if c.Err? {
          return Err(c.message);
        }
        acc := acc[f := c.value];
      }
      todo := todo - {f};
      done := done + {f};
    }
    return Ok(acc);
  }

  predicate CodebookDerivable(definitions: map<string, Value>) {
    forall i :: i in definitions ==> DefinitionDerivable(definitions[i])
  }

  function CodebookOf(definitions: map<string, Value>): Codebook
    requires CodebookDerivable(definitions)
  {
    map i | i in definitions :: CodesOfDefinition(definitions[i])
  }

  /** The outer loop: one codes map per instrument of the schema. */
  method DeriveCodebook(definitions: map<string, Value>) returns (r: Result<Codebook>)
    ensures r.Ok? <==> CodebookDerivable(definitions)
    ensures r.Ok? ==> r.value == CodebookOf(definitions)
  {
    var todo := definitions.Keys;
    var acc: Codebook := map[];
    while todo != {}
      invariant acc.Keys + todo == definitions.Keys && acc.Keys !! todo
      invariant forall i :: i in acc ==>
        DefinitionDerivable(definitions[i]) && acc[i] == CodesOfDefinition(definitions[i])
      decreases todo
    {
      var i :| i in todo;
      var codes := DeriveCodes(definitions[i]);
      if codes.Err? {
        return Err(codes.message);
      }
      acc := acc[i := codes.value];
      todo := todo - {i};
    }
    return Ok(acc);
  }

  // ---------------------------------------------------------------------------
  // The tables
  // ---------------------------------------------------------------------------

  const ADIR := "ADIR"
  const ADOS_MODULE1 := "ADOS_Module1"
  const ADOS_MODULE2 := "ADOS_Module2"
  const ADOS_MODULE3 := "ADOS_Module3"
  const ADOS_MODULE4 := "ADOS_Module4"

  /** Entry errors: per instrument and item, raw answers replaced before
      anything else looks at them. */
  const EXCEPTIONS: map<string, map<string, map<Value, Value>>> := map[
    ADIR := ADIR_EXCEPTIONS,
    ADOS_MODULE1 := MODULE1_EXCEPTIONS,
    ADOS_MODULE2 := MODULE2_EXCEPTIONS,
    ADOS_MODULE3 := MODULE3_EXCEPTIONS,
    ADOS_MODULE4 := MODULE4_EXCEPTIONS]

  /** The ADIR table, written in two halves (the items up to Q30
      and the later items) so that each can be checked on its own. */
  const ADIR_EXCEPTIONS: map<string, map<Value, Value>> := ADIR_EARLY + ADIR_LATE

  const ADIR_EARLY: map<string, map<Value, Value>> := map[
    "Q05" := map[Str("994") := Null],
    "Q06" := map[Str("910") := Null],
    "Q07" := map[Str("966") := Null],
    "Q08" := map[Str("9999") := Null],
    "Q11" := map[Str("999") := Null, Str("9") := Null],
    "Q20" := map[Str("8") := Str("0"), Str("998") := Str("0"), Str("9") := Null],
    "Q21" := map[Str("8") := Str("0"), Str("998") := Str("0"), Str("9") := Null],
    "Q22" := map[Str("8") := Str("0"), Str("998") := Str("0"), Str("9") := Null],
    "Q23" := map[Str("8") := Str("0"), Str("998") := Str("0"), Str("9") := Null],
    "Q24" := map[Str("8") := Str("0"), Str("998") := Str("0"), Str("9") := Null],
    "Q25" := map[Str("8") := Str("0"), Str("998") := Str("0"), Str("9") := Null],
    "Q26" := map[Str("0") := Str("998"), Str("8") := Str("998"), Str("9") := Null, Str("990") := Null],
    "Q27" := map[Str("998") := Str("8"), Str("9") := Null],
    "Q28" := map[Str("8") := Str("998"), Str("9") := Null, Str("995") := Null, Str("990") := Null],
    "Q30" := map[Str("9") := Null]]

  const ADIR_LATE: map<string, map<Value, Value>> := map[
    "Q38.1" := map[Str("3") := Str("2")],
    "Q42.1" := map[Str("3") := Str("2")],
    "Q42.2" := map[Str("3") := Str("2")],
    "Q54.1" := map[Str("3") := Str("2")],
    "Q54.2" := map[Str("3") := Str("2")],
    "Q67.1" := map[Str("8") := Null],
    "Q67.2" := map[Str("8") := Null],
    "Q71.1" := map[Str("3") := Str("2")],
    "Q71.2" := map[Str("3") := Str("2")],
    "Q72.2" := map[Str("3") := Str("2"), Str("8") := Null],
    "Q74.2" := map[Str("8") := Null],
    "Q86" := map[Str("13") := Null, Str("18") := Null],
    "Q87" := map[Str("999") := Null, Str("998") := Null, Str("992") := Null, Str("995") := Null],
    "Q88.2" := map[Str("3") := Str("2")],
    "Q90.1" := map[Str("3") := Str("2")],
    "Q90.2" := map[Str("3") := Str("2")],
    "Q91.2" := map[Str("4") := Null],
    "Q92.2" := map[Str("3") := Str("2")]]

  const MODULE1_EXCEPTIONS: map<string, map<Value, Value>> := map[
    "QA01" := map[Str("8") := Str("4")],
    "QB02" := map[Str("8") := Null],
    "QB07" := map[Str("8") := Null],
    "QB11" := map[Str("8") := Null],
    "QD03" := map[Str("3") := Str("2"), Str("8") := Null]]

  const MODULE2_EXCEPTIONS: map<string, map<Value, Value>> := map[
    "QA01" := map[Str("7") := Null],
    "QA04" := map[Str("8") := Null],
    "QA05" := map[Str("8") := Null],
    "QB03" := map[Str("8") := Null],
    "QD03" := map[Str("3") := Str("2")]]

  const MODULE3_EXCEPTIONS: map<string, map<Value, Value>> := map[
    "QA02" := map[Str("8") := Null],
    "QB01" := map[Str("1") := Null],
    "QB04" := map[Str("8") := Null],
    "QB05" := map[Str("3") := Str("2")],
    "QB06" := map[Str("8") := Null],
    "QB09" := map[Str("8") := Null],
    "QC01" := map[Str("8") := Null],
    "QD03" := map[Str("3") := Str("2")],
    "QE03" := map[Str("3") := Str("2")]]

  const MODULE4_EXCEPTIONS: map<string, map<Value, Value>> := map[
    "QB01" := map[Str("1") := Null],
    "QB06" := map[Str("3") := Str("2")],
    "QB12" := map[Str("8") := Null],
    "QC01" := map[Str("8") := Null]]

  /** The answers that stand for "no answer", per instrument. */
  const MISSING_DATA: map<string, set<Value>> := map[
    ADIR := {Null, Str(""), Str(" "), Str("N/A"), Str("-1"), Str("900"), Str("904")},
    ADOS_MODULE1 := {Null, Str(""), Str(" "), Str("-1"), Str("995"), Str("900"), Str("9"), Str("999")},
    ADOS_MODULE2 := {Null, Str(""), Str(" "), Str("-1"), Str("900"), Str("999"), Str("9")},
    ADOS_MODULE3 := {Null, Str(""), Str(" "), Str("-1"), Str("-5"), Str("900"), Str("9"), Str("999")},
    ADOS_MODULE4 := {Null, Str(""), Str(" "), Str("-1"), Str("9")}]

  /** Samples with major data issues: they keep their demographics but never
      receive an instrument block, and are dropped before output. */
  const BAD_SAMPLES: set<(string, string)> := {
    ("National Database for Autism Research", "NDARXR035XHH"),
    ("National Database for Autism Research", "NDARTF820BMV")}

  const ADIR_SCORES := ["diagnosis", "diagnosis_num_nulls", "social_interaction", "communication",
    "restricted_repetitive_behavior", "abnormality_evident_before_3_years",
    "A1", "A2", "A3", "A4", "B1", "B2", "B3", "B4", "C1", "C2", "C3", "C4"]
  const MODULE_SCORES := ["diagnosis", "diagnosis_num_nulls", "social_interaction", "communication",
    "restricted_repetitive_behavior"]

  /** The scores each instrument block starts with, all None, for the
      diagnosis step to fill in. */
  const SCORES: map<string, seq<string>> := map[
    ADIR := ADIR_SCORES,
    ADOS_MODULE1 := MODULE_SCORES,
    ADOS_MODULE2 := MODULE_SCORES,
    ADOS_MODULE3 := MODULE_SCORES,
    ADOS_MODULE4 := MODULE_SCORES]

  /** None is a missing answer for every instrument, so an exception that
      maps to None makes the answer missing. */
  lemma {:induction false} NullAlwaysMissing(instrument: string)
    requires instrument in MISSING_DATA
    ensures Null in MISSING_DATA[instrument]
  {
  }

  // ---------------------------------------------------------------------------
  // One answer
  // ---------------------------------------------------------------------------

  /** Where an item's answer sits in a row: one cell, a pair of cells whose
      second is read when the first is missing, or nowhere. */
  datatype Column = Cell(index: nat) | Pair(first: nat, second: nat) | NoColumn

  /** The raw answer of an item; reading a cell past the end of the row is
      Python's IndexError. */
  function RawAnswer(cells: seq<string>, col: Column, missing: set<Value>): (r: Result<Value>)
    ensures r.Ok? ==> r.value == Null || r.value.Str?
  {
    match col
    case NoColumn => Ok(Null)
    case Cell(i) => if i < |cells| then Ok(Str(cells[i])) else Err("IndexError")
    case Pair(i, j) =>
      if i >= |cells| then Err("IndexError")
      else if Str(cells[i]) in missing then (if j < |cells| then Ok(Str(cells[j])) else Err("IndexError"))
      else Ok(Str(cells[i]))
  }

  /** The exception remap of one item. */
  function Remap(exceptions: map<string, map<Value, Value>>, q: string, a: Value): (r: Value)
    ensures q !in exceptions || a !in exceptions[q] ==> r == a
  {
    if q in exceptions && a in exceptions[q] then exceptions[q][a] else a
  }

  /** The coded set of an item, falling back to the `default` entry; when
      neither exists Python raises KeyError. */
  function CodedValuesFor(codes: Codes, q: string): (r: Result<Option<set<Value>>>)
    ensures r.Err? <==> q !in codes && "default" !in codes
  {
    if q !in codes then (if "default" in codes then Ok(codes["default"]) else Err("KeyError"))
    else Ok(codes[q])
  }

  /** The ordinal value and the coded value an answer splits into. */
  datatype Entry = Entry(ordinal: Value, coded: Value)

  /** Lines 252-263: a missing answer gives (None, None); any other answer
      must parse as an integer, which goes to the coded slot when it is in
      the coded set and to the ordinal slot otherwise (with coded 0). */
  function Interpret(a: Value, missing: set<Value>, coded: Option<set<Value>>): (r: Result<Entry>)
    ensures r.Err? <==> a !in missing && !(a.Str? && ParseInt(a.s).Some?)
  {
    if a in missing then Ok(Entry(Null, Null))
    else if a.Str? && ParseInt(a.s).Some? then
      var v := Int(ParseInt(a.s).value);
      if coded.None? then Ok(Entry(v, Null))
      else if v in coded.value then Ok(Entry(Null, v))
      else Ok(Entry(v, Int(0)))
    else Err("ValueError")
  }

  /** The answer an entry stands for: the coded value when the ordinal slot
      is empty, the ordinal otherwise. */
  function Decode(e: Entry): Value {
    if e.ordinal == Null then e.coded else e.ordinal
  }

  /** For an item with a coded set, decoding the entry gives back the parsed
      answer, and exactly one slot carries it. */
  lemma {:induction false} InterpretDecodes(a: Value, missing: set<Value>, c: set<Value>)
    requires Int(0) !in c
    requires a !in missing && Interpret(a, missing, Some(c)).Ok?
    ensures Decode(Interpret(a, missing, Some(c)).value) == Int(ParseInt(a.s).value)
    ensures Interpret(a, missing, Some(c)).value.ordinal == Null
        <==> Interpret(a, missing, Some(c)).value.coded != Int(0)
  {
  }

  /** A coded slot is None exactly for a missing answer, so "not answered"
      stays apart from "answered outside the coded set" (which gives 0). */
  lemma {:induction false} InterpretMissingDistinct(a: Value, missing: set<Value>, c: set<Value>)
    requires Null !in c
    requires Interpret(a, missing, Some(c)).Ok?
    ensures Interpret(a, missing, Some(c)).value.coded == Null <==> a in missing
  {
  }

  /** Without a coded set the parsed answer goes to the ordinal slot. */
  lemma {:induction false} InterpretOrdinalOnly(a: Value, missing: set<Value>)
    requires Interpret(a, missing, None).Ok?
    ensures Interpret(a, missing, None).value.ordinal ==
      (if a in missing then Null else Int(ParseInt(a.s).value))
  {
  }

  /** The answers the exception table writes: None or an integer string. */
  const EXCEPTION_TARGETS: set<Value> := {Null, Str("0"), Str("2"), Str("4"), Str("8"), Str("998")}

  /** Every replacement in the exception table is one of the listed answers. */
  lemma {:induction false} ExceptionTargets(instrument: string, q: string, a: Value)
    requires instrument in EXCEPTIONS && q in EXCEPTIONS[instrument] && a in EXCEPTIONS[instrument][q]
    ensures EXCEPTIONS[instrument][q][a] in EXCEPTION_TARGETS
  {
    InstrumentTargets(instrument);
    TableTargets(EXCEPTIONS[instrument], q, a);
  }

  /** Each instrument's table writes only the listed answers. */
  lemma {:induction false} InstrumentTargets(instrument: string)
    requires instrument in EXCEPTIONS
    ensures OnlyTargets(EXCEPTIONS[instrument])
  {
    AdirTargets();
    Module1Targets();
    Module2Targets();
    Module3Targets();
    Module4Targets();
  }

  /** The answers a table writes. */
  predicate OnlyTargets(t: map<string, map<Value, Value>>) {
    forall q, a :: q in t && a in t[q] ==> t[q][a] in EXCEPTION_TARGETS
  }

  /** A single lookup in such a table. */
  lemma {:induction false} TableTargets(t: map<string, map<Value, Value>>, q: string, a: Value)
    requires OnlyTargets(t) && q in t && a in t[q]
    ensures t[q][a] in EXCEPTION_TARGETS
  {
  }

  /** The ADIR table, from its two halves. */
  lemma {:induction false} AdirTargets()
    ensures OnlyTargets(ADIR_EXCEPTIONS)
  {
    EarlyTargets();
    LateTargets();
  }

  /** The ADIR items up to Q30. */
  lemma {:induction false} EarlyTargets()
    ensures OnlyTargets(ADIR_EARLY)
  {
  }

  /** The later ADIR items. */
  lemma {:induction false} LateTargets()
    ensures OnlyTargets(ADIR_LATE)
  {
  }

  /** The ADOS Module 1 table. */
  lemma {:induction false} Module1Targets()
    ensures OnlyTargets(MODULE1_EXCEPTIONS)
  {
  }

  /** The ADOS Module 2 table. */
  lemma {:induction false} Module2Targets()
    ensures OnlyTargets(MODULE2_EXCEPTIONS)
  {
  }

  /** The ADOS Module 3 table. */
  lemma {:induction false} Module3Targets()
    ensures OnlyTargets(MODULE3_EXCEPTIONS)
  {
  }

  /** The ADOS Module 4 table. */
  lemma {:induction false} Module4Targets()
    ensures OnlyTargets(MODULE4_EXCEPTIONS)
  {
  }

  /** A replaced answer is always usable: it is None or parses as an integer,
      so an exception never turns a row into a ValueError. */
  lemma {:induction false} TargetsInterpret(t: Value, missing: set<Value>, coded: Option<set<Value>>)
    requires t in EXCEPTION_TARGETS && Null in missing
    ensures Interpret(t, missing, coded).Ok?
  {
    if t != Null {
      ParseDigits(t.s);
    }
  }

  /** An answer the exception table maps to a target reads as that target. */
  lemma {:induction false} ExceptionsRepair(instrument: string, q: string, a: Value, missing: set<Value>, coded: Option<set<Value>>)
    requires instrument in EXCEPTIONS && q in EXCEPTIONS[instrument] && a in EXCEPTIONS[instrument][q]
    requires Null in missing
    ensures Interpret(Remap(EXCEPTIONS[instrument], q, a), missing, coded).Ok?
  {
    ExceptionTargets(instrument, q, a);
    TargetsInterpret(EXCEPTIONS[instrument][q][a], missing, coded);
  }

  // ---------------------------------------------------------------------------
  // The item loop
  // ---------------------------------------------------------------------------

  /** What the item loop reads besides the row: the instrument's exceptions,
      codes and missing-data set. */
  datatype Tables = Tables(exceptions: map<string, map<Value, Value>>, codes: Codes, missing: set<Value>)

  /** The entry of one item of a row. */
  function ItemEntry(cells: seq<string>, item: (string, Column), t: Tables): Result<Entry> {
    var raw :- RawAnswer(cells, item.1, t.missing);
    var coded :- CodedValuesFor(t.codes, item.0);
    Interpret(Remap(t.exceptions, item.0, raw), t.missing, coded)
  }

  /** The item has a coded set, so its `a` key is written too. */
  predicate HasCodes(codes: Codes, q: string) {
    CodedValuesFor(codes, q).Ok? && CodedValuesFor(codes, q).value.Some?
  }

  /** The keys one item writes. */
  function ItemKeys(codes: Codes, q: string): set<string> {
    if HasCodes(codes, q) then {q, q + "a"} else {q}
  }

  /** Lines 265-268: the item's ordinal value under its own name, and its
      coded value under the name with `a` appended when it has a coded set. */
  function RecodeItem(b: Dict, cells: seq<string>, item: (string, Column), t: Tables): (r: Result<Dict>)
    ensures r.Ok? <==> ItemEntry(cells, item, t).Ok?
    ensures r.Ok? ==> r.value.Keys == b.Keys + ItemKeys(t.codes, item.0)
    ensures r.Ok? ==> forall k :: k in b && k !in ItemKeys(t.codes, item.0) ==> r.value[k] == b[k]
  {
    var e :- ItemEntry(cells, item, t);
    if HasCodes(t.codes, item.0) then Ok(b[item.0 := e.ordinal][item.0 + "a" := e.coded])
    else Ok(b[item.0 := e.ordinal])
  }

  /** Every item of the row, in the column table's order. */
  function RecodeItems(b: Dict, cells: seq<string>, items: seq<(string, Column)>, t: Tables): Result<Dict>
    decreases |items|
  {
    if |items| == 0 then Ok(b)
    else
      var b' :- RecodeItem(b, cells, items[0], t);
      RecodeItems(b', cells, items[1..], t)
  }

  /** The keys all items write. */
  function WrittenKeys(codes: Codes, items: seq<(string, Column)>): set<string>
    decreases |items|
  {
    if |items| == 0 then {} else ItemKeys(codes, items[0].0) + WrittenKeys(codes, items[1..])
  }

  /** The loop fails exactly when some item fails. */
  lemma {:induction false} RecodeItemsFails(b: Dict, cells: seq<string>, items: seq<(string, Column)>, t: Tables)
    ensures RecodeItems(b, cells, items, t).Ok?
        <==> forall i :: 0 <= i < |items| ==> ItemEntry(cells, items[i], t).Ok?
    decreases |items|
  {
    if |items| > 0 {
      var r := RecodeItem(b, cells, items[0], t);
      if r.Ok? {
        RecodeItemsFails(r.value, cells, items[1..], t);
        assert forall i :: 1 <= i < |items| ==> items[i] == items[1..][i - 1];
      }
    }
  }

  /** The loop adds exactly the item keys and changes nothing else. */
  lemma {:induction false} RecodeItemsKeys(b: Dict, cells: seq<string>, items: seq<(string, Column)>, t: Tables)
    requires RecodeItems(b, cells, items, t).Ok?
    ensures RecodeItems(b, cells, items, t).value.Keys == b.Keys + WrittenKeys(t.codes, items)
    ensures forall k :: k in b && k !in WrittenKeys(t.codes, items) ==>
      RecodeItems(b, cells, items, t).value[k] == b[k]
    decreases |items|
  {
    if |items| > 0 {
      var r := RecodeItem(b, cells, items[0], t);
      RecodeItemsKeys(r.value, cells, items[1..], t);
    }
  }

  /** No item name is repeated, and none is another item's `a` name. */
  predicate DistinctItems(items: seq<(string, Column)>) {
    forall i, j :: 0 <= i < |items| && 0 <= j < |items| && i != j ==>
      items[i].0 != items[j].0 && items[i].0 != items[j].0 + "a"
  }

  /** With distinct items, each item's keys end up holding its own entry. */
  lemma {:induction false} RecodeItemsValue(b: Dict, cells: seq<string>, items: seq<(string, Column)>, t: Tables, i: nat)
    requires DistinctItems(items) && i < |items|
    requires RecodeItems(b, cells, items, t).Ok?
    ensures ItemEntry(cells, items[i], t).Ok?
    ensures items[i].0 in RecodeItems(b, cells, items, t).value
         && RecodeItems(b, cells, items, t).value[items[i].0] == ItemEntry(cells, items[i], t).value.ordinal
    ensures HasCodes(t.codes, items[i].0) ==>
      items[i].0 + "a" in RecodeItems(b, cells, items, t).value
      && RecodeItems(b, cells, items, t).value[items[i].0 + "a"] == ItemEntry(cells, items[i], t).value.coded
    decreases |items|
  {
    var r := RecodeItem(b, cells, items[0], t).value;
    var rest := items[1..];
    assert DistinctItems(rest) by {
      forall x, y | 0 <= x < |rest| && 0 <= y < |rest| && x != y
        ensures rest[x].0 != rest[y].0 && rest[x].0 != rest[y].0 + "a"
      {
        assert rest[x] == items[x + 1] && rest[y] == items[y + 1];
      }
    }
    if i == 0 {
      var q := items[0].0;
      assert q !in WrittenKeys(t.codes, rest) && q + "a" !in WrittenKeys(t.codes, rest) by {
        WrittenKeysNames(t.codes, rest, q);
        WrittenKeysNames(t.codes, rest, q + "a");
        forall j | 0 <= j < |rest|
          ensures rest[j].0 != q && rest[j].0 + "a" != q && rest[j].0 != q + "a" && rest[j].0 + "a" != q + "a"
        {
          assert rest[j] == items[j + 1];
          AppendInjective(rest[j].0, q, "a");
        }
      }
      RecodeItemsKeys(r, cells, rest, t);
    } else {
      RecodeItemsValue(r, cells, rest, t, i - 1);
    }
  }

  lemma {:induction false} AppendInjective(x: string, y: string, s: string)
    ensures x + s == y + s ==> x == y
  {
    if x + s == y + s {
      assert x == (x + s)[..|x|];
      assert y == (y + s)[..|y|];
    }
  }

  /** A key is written by some item, as its name or its `a` name. */
  lemma {:induction false} WrittenKeysNames(codes: Codes, items: seq<(string, Column)>, k: string)
    ensures k in WrittenKeys(codes, items) ==>
      exists j :: 0 <= j < |items| && (k == items[j].0 || k == items[j].0 + "a")
    decreases |items|
  {
    if |items| > 0 {
      WrittenKeysNames(codes, items[1..], k);
      if k in WrittenKeys(codes, items[1..]) {
        var j :| 0 <= j < |items[1..]| && (k == items[1..][j].0 || k == items[1..][j].0 + "a");
        assert items[1..][j] == items[j + 1];
      }
    }
  }

  /** The loop of lines 231-268 over the column table. */
  method RecodeRow(b: Dict, cells: seq<string>, items: seq<(string, Column)>, t: Tables) returns (r: Result<Dict>)
    ensures r == RecodeItems(b, cells, items, t)
  {
    var block := b;
    var i := 0;
    while i < |items|
      invariant 0 <= i <= |items|
      invariant RecodeItems(b, cells, items, t) == RecodeItems(block, cells, items[i..], t)
    {
      var e := ItemEntry(cells, items[i], t);
      if e.Err? {
        return Err(e.message);
      }
      var q := items[i].0;
      block := block[q := e.value.ordinal];
      if HasCodes(t.codes, q) {
        block := block[q + "a" := e.value.coded];
      }
      assert items[i..][1..] == items[i + 1..];
      i := i + 1;
    }
    assert items[i..] == [];
    return Ok(block);
  }

  /** A split column reads like the single column it resolves to. */
  lemma {:induction false} PairResolves(cells: seq<string>, q: string, i: nat, j: nat, t: Tables)
    requires i < |cells|
    ensures ItemEntry(cells, (q, Pair(i, j)), t)
         == ItemEntry(cells, (q, if Str(cells[i]) in t.missing then Cell(j) else Cell(i)), t)
  {
  }

  /** An item without a column is a missing answer. */
  lemma {:induction false} NoColumnIsMissing(cells: seq<string>, q: string, t: Tables)
    requires Null in t.missing && (q !in t.exceptions || Null !in t.exceptions[q])
    requires CodedValuesFor(t.codes, q).Ok?
    ensures ItemEntry(cells, (q, NoColumn), t) == Ok(Entry(Null, Null))
  {
  }

  // ---------------------------------------------------------------------------
  // A fresh instrument block
  // ---------------------------------------------------------------------------

  /** The tables the record fold reads: per-instrument exceptions,
      missing-data sets and score names, and the bad samples. */
  datatype Config = Config(
    exceptions: map<string, map<string, map<Value, Value>>>,
    missing: map<string, set<Value>>,
    scores: map<string, seq<string>>,
    bad: set<(string, string)>)

  /** The tables as the source defines them. */
  const SOURCE: Config := Config(EXCEPTIONS, MISSING_DATA, SCORES, BAD_SAMPLES)

  /** What the fold relies on: no instrument is named like a field of the
      sample, no score like the age or the date, and None is missing for
      every instrument. */
  predicate WellFormed(c: Config) {
    (forall i :: i in c.scores ==> i !in SAMPLE_FIELDS)
    && (forall i :: i in c.scores ==> "age" !in c.scores[i] && "interview_date" !in c.scores[i])
    && (forall i :: i in c.missing ==> Null in c.missing[i])
    && HISTORY !in c.scores
  }

  lemma {:induction false} SourceWellFormed()
    ensures WellFormed(SOURCE)
  {
    SourceInstrumentsAreNotFields();
    SourceScoresAreNotAgeOrDate();
    SourceNullIsMissing();
  }

  lemma {:induction false} SourceInstrumentsAreNotFields()
    ensures forall i :: i in SCORES ==> i !in SAMPLE_FIELDS
    ensures HISTORY !in SCORES
  {
  }

  lemma {:induction false} SourceScoresAreNotAgeOrDate()
    ensures forall i :: i in SCORES ==> "age" !in SCORES[i] && "interview_date" !in SCORES[i]
  {
    forall i | i in SCORES
      ensures "age" !in SCORES[i] && "interview_date" !in SCORES[i]
    {
      if i == ADIR {
        assert SCORES[i] == ADIR_SCORES;
      } else {
        assert SCORES[i] == MODULE_SCORES;
      }
    }
  }

  lemma {:induction false} SourceNullIsMissing()
    ensures forall i :: i in MISSING_DATA ==> Null in MISSING_DATA[i]
  {
    forall i | i in MISSING_DATA
      ensures Null in MISSING_DATA[i]
    {
      NullAlwaysMissing(i);
    }
  }

  /** The fields of a new sample. */
  const SAMPLE_FIELDS: set<string> := {"dataset", "identifier", "gender", "race", "ethnicity", "family",
    "diagnosis", "clinical_diagnosis", "cpea_diagnosis", "cpea_adjusted_diagnosis"}

  /** Lines 217-224: the age, the interview date and every score set to None. */
  function FreshBlock(age: Value, date: Value, scores: seq<string>): (b: Dict)
    ensures b.Keys == {"age", "interview_date"} + set s | s in scores
  {
    map["age" := age, "interview_date" := date] + map s | s in scores :: Null
  }

  /** The fresh block holds the row's age and date and a None for every
      score. */
  lemma {:induction false} FreshBlockFields(age: Value, date: Value, scores: seq<string>)
    requires "age" !in scores && "interview_date" !in scores
    ensures FreshBlock(age, date, scores)["age"] == age
    ensures FreshBlock(age, date, scores)["interview_date"] == date
    ensures forall x :: x in scores ==> FreshBlock(age, date, scores)[x] == Null
  {
  }

  /** Lines 217-229: the block built from one row. Every table lookup on
      the instrument raises KeyError when the instrument has no entry. */
  function Block(c: Config, instrument: string, codebook: Codebook, age: Value, date: Value,
                 cells: seq<string>, items: seq<(string, Column)>): Result<Dict>
  {
    if instrument !in c.scores || instrument !in c.exceptions || instrument !in codebook || instrument !in c.missing
    then Err("KeyError")
    else RecodeItems(FreshBlock(age, date, c.scores[instrument]), cells, items, TablesFor(c, instrument, codebook))
  }

  /** The tables the item loop of an instrument uses. */
  function TablesFor(c: Config, instrument: string, codebook: Codebook): Tables
    requires instrument in c.exceptions && instrument in codebook && instrument in c.missing
  {
    Tables(c.exceptions[instrument], codebook[instrument], c.missing[instrument])
  }

  /** Every instrument with scores, codes and a missing-data set gets a block
      whenever its items can be read, and the block holds exactly the fresh
      fields and the item keys. */
  lemma {:induction false} BlockBuilds(c: Config, instrument: string, codebook: Codebook, age: Value, date: Value,
                    cells: seq<string>, items: seq<(string, Column)>)
    requires instrument in c.scores && instrument in c.exceptions && instrument in codebook && instrument in c.missing
    requires forall i :: 0 <= i < |items| ==> ItemEntry(cells, items[i], TablesFor(c, instrument, codebook)).Ok?
    ensures Block(c, instrument, codebook, age, date, cells, items).Ok?
    ensures Block(c, instrument, codebook, age, date, cells, items).value.Keys
         == FreshBlock(age, date, c.scores[instrument]).Keys + WrittenKeys(codebook[instrument], items)
  {
    var t := TablesFor(c, instrument, codebook);
    RecodeItemsFails(FreshBlock(age, date, c.scores[instrument]), cells, items, t);
    RecodeItemsKeys(FreshBlock(age, date, c.scores[instrument]), cells, items, t);
  }

  /** Items from two rows never mix: a replaced block keeps nothing of the
      old one, and every field no item writes is as the fresh block has it. */
  lemma {:induction false} BlockIsFresh(c: Config, instrument: string, codebook: Codebook, age: Value, date: Value,
                     cells: seq<string>, items: seq<(string, Column)>, k: string)
    requires Block(c, instrument, codebook, age, date, cells, items).Ok?
    requires k !in WrittenKeys(codebook[instrument], items)
    ensures k in Block(c, instrument, codebook, age, date, cells, items).value
        <==> k in FreshBlock(age, date, c.scores[instrument])
    ensures k in FreshBlock(age, date, c.scores[instrument]) ==>
      Block(c, instrument, codebook, age, date, cells, items).value[k] == FreshBlock(age, date, c.scores[instrument])[k]
  {
    RecodeItemsKeys(FreshBlock(age, date, c.scores[instrument]), cells, items, TablesFor(c, instrument, codebook));
  }

  // ---------------------------------------------------------------------------
  // Demographics
  // ---------------------------------------------------------------------------

  /** What the adapters return for one row, and the row's cells. */
  datatype Row = Row(identifier: string, gender: Value, race: Value, ethnicity: Value, family: Value,
                     age: Value, interviewDate: Value, cells: seq<string>)

  const DEMOGRAPHICS := ["gender", "race", "ethnicity", "family"]

  /** The row's value for a demographic field. */
  function Incoming(r: Row, f: string): Value {
    if f == "gender" then r.gender
    else if f == "race" then r.race
    else if f == "ethnicity" then r.ethnicity
    else r.family
  }

  predicate HasDemographics(s: Dict) {
    "gender" in s && "race" in s && "ethnicity" in s && "family" in s
  }

  /** Lines 197-208: a sample seen for the first time. */
  function NewSample(dataset: string, r: Row): (s: Dict)
    ensures HasDemographics(s)
  {
    map["dataset" := Str(dataset), "identifier" := Str(r.identifier),
        "gender" := r.gender, "race" := r.race, "ethnicity" := r.ethnicity, "family" := r.family,
        "diagnosis" := Null, "clinical_diagnosis" := Null,
        "cpea_diagnosis" := Null, "cpea_adjusted_diagnosis" := Null]
  }

  function MergeField(stored: Value, incoming: Value): Value {
    if stored == Null then incoming else stored
  }

  /** Lines 176-194: each None demographic field takes the row's value. */
  function Merge(s: Dict, r: Row): Dict
    requires HasDemographics(s)
  {
    s["gender" := MergeField(s["gender"], r.gender)]
     ["race" := MergeField(s["race"], r.race)]
     ["ethnicity" := MergeField(s["ethnicity"], r.ethnicity)]
     ["family" := MergeField(s["family"], r.family)]
  }

  /** First non-null wins: a stored value is never overwritten, a None takes
      the row's value, and no other field changes. */
  lemma {:induction false} MergeFirstNonNull(s: Dict, r: Row, f: string)
    requires HasDemographics(s)
    ensures Merge(s, r).Keys == s.Keys
    ensures f in DEMOGRAPHICS ==> Merge(s, r)[f] == (if s[f] == Null then Incoming(r, f) else s[f])
    ensures f in s && f !in DEMOGRAPHICS ==> Merge(s, r)[f] == s[f]
  {
  }

  /** A mismatch on field `f` is reported when the stored value is set, the
      `gate` value is set and the row's value differs from the stored one. */
  predicate Mismatch(s: Dict, r: Row, f: string, gate: Value)
    requires HasDemographics(s) && f in DEMOGRAPHICS
  {
    s[f] != Null && gate != Null && s[f] != Incoming(r, f)
  }

  function Reports(s: Dict, r: Row, gates: seq<Value>): (out: seq<string>)
    requires HasDemographics(s) && |gates| == 4
  {
    (if Mismatch(s, r, "gender", gates[0]) then ["gender"] else [])
    + (if Mismatch(s, r, "race", gates[1]) then ["race"] else [])
    + (if Mismatch(s, r, "ethnicity", gates[2]) then ["ethnicity"] else [])
    + (if Mismatch(s, r, "family", gates[3]) then ["family"] else [])
  }

  /** Lines 178-194 as written: the ethnicity and family tests are gated on
      the row's race rather than on the field itself. */
  function ConflictsAsWritten(s: Dict, r: Row): seq<string>
    requires HasDemographics(s)
  {
    Reports(s, r, [r.gender, r.race, r.race, r.race])
  }

  /** The mismatch reports, each gated on the row's own value of the field. */
  function Conflicts(s: Dict, r: Row): seq<string>
    requires HasDemographics(s)
  {
    Reports(s, r, [r.gender, r.race, r.ethnicity, r.family])
  }

  /** A field is reported exactly when the merge keeps a stored value against
      a different non-null value of the row. */
  lemma {:induction false} ConflictsAreKeptValues(s: Dict, r: Row, f: string)
    requires HasDemographics(s) && f in DEMOGRAPHICS
    ensures f in Conflicts(s, r) <==> Incoming(r, f) != Null && Merge(s, r)[f] != Incoming(r, f)
  {
  }

  /** As written, a differing ethnicity of a row without race is not
      reported, and a row with race but no ethnicity reports a mismatch
      against None. */
  lemma {:induction false} ConflictsAsWrittenMisreports()
    ensures var s := NewSample("AGRE", Row("AU0001", Null, Null, Str("Hispanic"), Null, Null, Null, []));
            var quiet := Row("AU0001", Null, Null, Str("Not Hispanic"), Null, Null, Null, []);
            var loud := Row("AU0001", Null, Str("White"), Null, Null, Null, Null, []);
            "ethnicity" !in ConflictsAsWritten(s, quiet) && "ethnicity" in Conflicts(s, quiet)
            && "ethnicity" in ConflictsAsWritten(s, loud) && "ethnicity" !in Conflicts(s, loud)
  {
  }

  // ---------------------------------------------------------------------------
  // Keeping the latest block
  // ---------------------------------------------------------------------------

  /** `x["age"]` of a stored block, or an error where Python raises. */
  function StoredAge(block: Value): Result<Value> {
    if block.Obj? && "age" in block.fields then Ok(block.fields["age"]) else Err("TypeError")
  }

  /** Line 216: a block is replaced when there is none, when its age is None,
      or when the row's age is set and later. Ages are compared as
      integers; comparing anything else raises TypeError. */
  function Replaces(s: Dict, instrument: string, age: Value): Result<bool> {
    if instrument !in s then Ok(true)
    else
      var stored :- StoredAge(s[instrument]);
      if stored == Null then Ok(true)
      else if age == Null then Ok(false)
      else if stored.Int? && age.Int? then Ok(stored.i < age.i)
      else Err("TypeError")
  }

  /** The replacement rule in full: replaced iff no block, a None stored
      age, or a strictly greater row age; kept iff a set stored age meets a
      None or a smaller-or-equal age. */
  lemma {:induction false} ReplacesRule(s: Dict, instrument: string, age: Value)
    requires instrument in s ==> StoredAge(s[instrument]).Ok? && NullableInt(StoredAge(s[instrument]).value)
    requires NullableInt(age)
    ensures Replaces(s, instrument, age).Ok?
    ensures Replaces(s, instrument, age).value <==>
      instrument !in s || StoredAge(s[instrument]).value == Null
      || (age.Int? && StoredAge(s[instrument]).value.i < age.i)
  {
  }

  // ---------------------------------------------------------------------------
  // The record fold
  // ---------------------------------------------------------------------------

  /** `identifier_to_samples`: one sample per (dataset, identifier). */
  type Store = map<(string, string), Dict>

  /** A sample records the key it is stored under and has its demographic
      fields. */
  predicate Keyed(k: (string, string), s: Dict) {
    "dataset" in s && s["dataset"] == Str(k.0)
    && "identifier" in s && s["identifier"] == Str(k.1)
    && HasDemographics(s)
  }

  /** The sample holds no instrument block. */
  predicate Blockless(c: Config, s: Dict) {
    forall i :: i in c.scores ==> i !in s
  }

  /** Every sample is keyed by its own (dataset, identifier), and no bad
      sample holds an instrument block. */
  predicate StoreValid(c: Config, st: Store) {
    (forall k :: k in st ==> Keyed(k, st[k]))
    && (forall k :: k in st && k in c.bad ==> Blockless(c, st[k]))
  }

  /** Deleting samples keeps the store valid. */
  lemma {:induction false} RemoveKeepsValid(c: Config, st: Store, ks: set<(string, string)>)
    requires StoreValid(c, st)
    ensures StoreValid(c, st - ks)
  {
  }

  /** One more deleted identifier. */
  lemma {:induction false} RemoveStep(st: Store, bad: set<(string, string)>, todo: set<(string, string)>, id: (string, string))
    requires id in todo && todo <= bad
    ensures st - (bad - todo) - {id} == st - (bad - (todo - {id}))
  {
    assert bad - (todo - {id}) == (bad - todo) + {id};
  }

  /** The sample a row updates, with its demographics merged in. */
  function MergedSample(st: Store, dataset: string, r: Row): Dict
    requires forall k :: k in st ==> Keyed(k, st[k])
  {
    var key := (dataset, r.identifier);
    if key in st then
      assert Keyed(key, st[key]);
      Merge(st[key], r)
    else NewSample(dataset, r)
  }

  lemma {:induction false} NewSampleKeyed(dataset: string, r: Row)
    ensures Keyed((dataset, r.identifier), NewSample(dataset, r))
    ensures NewSample(dataset, r).Keys == SAMPLE_FIELDS
  {
  }

  /** The merge keeps the key fields and the set of fields. */
  lemma {:induction false} MergeKeyed(k: (string, string), s: Dict, r: Row)
    requires Keyed(k, s)
    ensures Keyed(k, Merge(s, r)) && Merge(s, r).Keys == s.Keys
  {
    assert "dataset" !in DEMOGRAPHICS && "identifier" !in DEMOGRAPHICS;
  }

  lemma {:induction false} MergedSampleKeyed(c: Config, st: Store, dataset: string, r: Row)
    requires StoreValid(c, st) && WellFormed(c)
    ensures Keyed((dataset, r.identifier), MergedSample(st, dataset, r))
    ensures (dataset, r.identifier) in st ==> MergedSample(st, dataset, r).Keys == st[(dataset, r.identifier)].Keys
    ensures (dataset, r.identifier) !in st ==> Blockless(c, MergedSample(st, dataset, r))
  {
    var key := (dataset, r.identifier);
    if key in st {
      MergeKeyed(key, st[key], r);
    } else {
      NewSampleKeyed(dataset, r);
    }
  }

  /** No instrument is a demographic field. */
  lemma {:induction false} InstrumentNotDemographic(c: Config, instrument: string)
    requires WellFormed(c) && instrument in c.scores
    ensures instrument !in SAMPLE_FIELDS && instrument !in DEMOGRAPHICS
  {
  }

  /** Lines 212-268 on the merged sample: a bad sample is left as it is;
      otherwise the instrument block is replaced by `block`, the row's own
      block, when the row is more recent. */
  function UpdatedSample(s: Dict, instrument: string, age: Value, block: Result<Dict>, bad: bool): Result<Dict> {
    if bad then Ok(s)
    else
      var rep :- Replaces(s, instrument, age);
      if !rep then Ok(s)
      else
        var b :- block;
        Ok(s[instrument := Obj(b)])
  }

  /** Lines 165-268 for one row: merge the demographics into the sample,
      then update its instrument block. */
  function AfterRow(c: Config, st: Store, dataset: string, instrument: string, r: Row, block: Result<Dict>): Result<Store>
    requires StoreValid(c, st)
  {
    var key := (dataset, r.identifier);
    var s :- UpdatedSample(MergedSample(st, dataset, r), instrument, r.age, block, key in c.bad);
    Ok(st[key := s])
  }

  /** The block a row of a file produces. */
  function RowBlock(c: Config, codebook: Codebook, instrument: string, items: seq<(string, Column)>, r: Row): Result<Dict> {
    Block(c, instrument, codebook, r.age, r.interviewDate, r.cells, items)
  }

  /** The update touches the instrument field and nothing else. */
  lemma {:induction false} UpdatedSampleFrame(s: Dict, instrument: string, age: Value, block: Result<Dict>, bad: bool, f: string)
    requires UpdatedSample(s, instrument, age, block, bad).Ok?
    requires f != instrument
    ensures f in UpdatedSample(s, instrument, age, block, bad).value <==> f in s
    ensures f in s ==> UpdatedSample(s, instrument, age, block, bad).value[f] == s[f]
  {
  }

  /** The update keeps the sample keyed. */
  lemma {:induction false} UpdatedSampleKeyed(k: (string, string), s: Dict, instrument: string, age: Value, block: Result<Dict>, bad: bool)
    requires Keyed(k, s)
    requires instrument != "dataset" && instrument != "identifier" && instrument !in DEMOGRAPHICS
    requires UpdatedSample(s, instrument, age, block, bad).Ok?
    ensures Keyed(k, UpdatedSample(s, instrument, age, block, bad).value)
  {
  }

  /** A good sample ends up with the row's block when the replacement rule
      says so and keeps its stored block otherwise. */
  lemma {:induction false} UpdatedSampleBlock(s: Dict, instrument: string, age: Value, block: Result<Dict>)
    requires UpdatedSample(s, instrument, age, block, false).Ok?
    ensures Replaces(s, instrument, age).Ok?
    ensures instrument in UpdatedSample(s, instrument, age, block, false).value
    ensures UpdatedSample(s, instrument, age, block, false).value[instrument]
         == (if Replaces(s, instrument, age).value then Obj(block.value) else s[instrument])
  {
  }

  /** A row keeps the store valid. */
  lemma {:induction false} AfterRowValid(c: Config, st: Store, dataset: string, instrument: string, r: Row, block: Result<Dict>)
    requires StoreValid(c, st) && WellFormed(c) && instrument in c.scores
    requires AfterRow(c, st, dataset, instrument, r, block).Ok?
    ensures StoreValid(c, AfterRow(c, st, dataset, instrument, r, block).value)
  {
    var key := (dataset, r.identifier);
    var m := MergedSample(st, dataset, r);
    var bad := key in c.bad;
    var s := UpdatedSample(m, instrument, r.age, block, bad).value;
    MergedSampleKeyed(c, st, dataset, r);
    InstrumentNotDemographic(c, instrument);
    UpdatedSampleKeyed(key, m, instrument, r.age, block, bad);
    if bad && key in st {
      assert Blockless(c, st[key]);
    }
    StoreUpdateValid(c, st, key, s);
  }

  /** Writing a keyed sample, block-free if bad, keeps the store valid. */
  lemma {:induction false} StoreUpdateValid(c: Config, st: Store, key: (string, string), s: Dict)
    requires StoreValid(c, st) && Keyed(key, s)
    requires key in c.bad ==> Blockless(c, s)
    ensures StoreValid(c, st[key := s])
  {
  }

  /** A row touches only its own sample, which is there afterwards. */
  lemma {:induction false} AfterRowOthers(c: Config, st: Store, dataset: string, instrument: string, r: Row, block: Result<Dict>,
                       k: (string, string))
    requires StoreValid(c, st)
    requires AfterRow(c, st, dataset, instrument, r, block).Ok?
    requires k != (dataset, r.identifier)
    ensures (dataset, r.identifier) in AfterRow(c, st, dataset, instrument, r, block).value
    ensures k in AfterRow(c, st, dataset, instrument, r, block).value <==> k in st
    ensures k in st ==> AfterRow(c, st, dataset, instrument, r, block).value[k] == st[k]
  {
  }

  /** The demographics after a row: first non-null wins. */
  lemma {:induction false} AfterRowDemographics(c: Config, st: Store, dataset: string, instrument: string, r: Row,
                             block: Result<Dict>, f: string)
    requires StoreValid(c, st) && WellFormed(c) && instrument in c.scores
    requires AfterRow(c, st, dataset, instrument, r, block).Ok?
    requires f in DEMOGRAPHICS
    ensures var key := (dataset, r.identifier);
      AfterRow(c, st, dataset, instrument, r, block).value[key][f]
        == (if key in st && st[key][f] != Null then st[key][f] else Incoming(r, f))
  {
    InstrumentNotDemographic(c, instrument);
    var key := (dataset, r.identifier);
    var m := MergedSample(st, dataset, r);
    MergedSampleKeyed(c, st, dataset, r);
    UpdatedSampleFrame(m, instrument, r.age, block, key in c.bad, f);
    if key in st {
      MergeFirstNonNull(st[key], r, f);
    }
  }

  /** The instrument block after a row of a good sample: the row's block
      when the replacement rule says so, the stored block otherwise. */
  lemma {:induction false} AfterRowBlock(c: Config, st: Store, dataset: string, instrument: string, r: Row, block: Result<Dict>)
    requires StoreValid(c, st) && WellFormed(c) && instrument in c.scores
    requires AfterRow(c, st, dataset, instrument, r, block).Ok?
    requires (dataset, r.identifier) !in c.bad
    ensures var key := (dataset, r.identifier);
      var res := AfterRow(c, st, dataset, instrument, r, block).value;
      var stored := if key in st then st[key] else map[];
      Replaces(stored, instrument, r.age).Ok?
      && instrument in res[key]
      && res[key][instrument] == (if Replaces(stored, instrument, r.age).value then Obj(block.value)
                                  else stored[instrument])
  {
    InstrumentNotDemographic(c, instrument);
    var key := (dataset, r.identifier);
    var m := MergedSample(st, dataset, r);
    MergedSampleKeyed(c, st, dataset, r);
    UpdatedSampleBlock(m, instrument, r.age, block);
    if key in st {
      MergeFirstNonNull(st[key], r, instrument);
      assert Replaces(m, instrument, r.age) == Replaces(st[key], instrument, r.age);
    } else {
      assert instrument !in m;
    }
  }

  /** A bad sample's row always succeeds and leaves the sample without
      instrument blocks. */
  lemma {:induction false} AfterRowBadSample(c: Config, st: Store, dataset: string, instrument: string, r: Row, block: Result<Dict>)
    requires StoreValid(c, st) && WellFormed(c) && instrument in c.scores
    requires (dataset, r.identifier) in c.bad
    ensures AfterRow(c, st, dataset, instrument, r, block).Ok?
    ensures Blockless(c, AfterRow(c, st, dataset, instrument, r, block).value[(dataset, r.identifier)])
  {
    AfterRowValid(c, st, dataset, instrument, r, block);
  }

  /** The row's block carries the row's age unless an item overwrites it. */
  lemma {:induction false} BlockNewAge(c: Config, codebook: Codebook, instrument: string, items: seq<(string, Column)>, r: Row)
    requires WellFormed(c) && instrument in c.scores && instrument in codebook
    requires RowBlock(c, codebook, instrument, items, r).Ok?
    requires "age" !in WrittenKeys(codebook[instrument], items)
    ensures "age" in RowBlock(c, codebook, instrument, items, r).value
    ensures RowBlock(c, codebook, instrument, items, r).value["age"] == r.age
  {
    BlockIsFresh(c, instrument, codebook, r.age, r.interviewDate, r.cells, items, "age");
    FreshBlockFields(r.age, r.interviewDate, c.scores[instrument]);
  }

  /** Once a block with an integer age is stored, later rows never lower its
      age and never empty it. */
  lemma {:induction false} AgeNeverDecreases(c: Config, st: Store, codebook: Codebook, dataset: string, instrument: string,
                          items: seq<(string, Column)>, r: Row, a: int)
    requires StoreValid(c, st) && WellFormed(c) && instrument in c.scores
    requires AfterRow(c, st, dataset, instrument, r, RowBlock(c, codebook, instrument, items, r)).Ok?
    requires (dataset, r.identifier) in st && instrument in st[(dataset, r.identifier)]
    requires StoredAge(st[(dataset, r.identifier)][instrument]) == Ok(Int(a))
    requires instrument in codebook && "age" !in WrittenKeys(codebook[instrument], items)
    ensures var res := AfterRow(c, st, dataset, instrument, r, RowBlock(c, codebook, instrument, items, r)).value;
      var age := StoredAge(res[(dataset, r.identifier)][instrument]);
      age.Ok? && age.value.Int? && age.value.i >= a
  {
    var key := (dataset, r.identifier);
    var block := RowBlock(c, codebook, instrument, items, r);
    assert key !in c.bad;
    AfterRowBlock(c, st, dataset, instrument, r, block);
    if Replaces(st[key], instrument, r.age).value {
      BlockNewAge(c, codebook, instrument, items, r);
    }
  }

  /** All rows of one file, in order. */
  function AfterRows(c: Config, st: Store, codebook: Codebook, dataset: string, instrument: string,
                     items: seq<(string, Column)>, rows: seq<Row>): Result<Store>
    requires StoreValid(c, st) && WellFormed(c) && instrument in c.scores
    decreases |rows|
  {
    if |rows| == 0 then Ok(st)
    else
      var block := RowBlock(c, codebook, instrument, items, rows[0]);
      var st' :- AfterRow(c, st, dataset, instrument, rows[0], block);
      AfterRowValid(c, st, dataset, instrument, rows[0], block);
      AfterRows(c, st', codebook, dataset, instrument, items, rows[1..])
  }

  /** After a file, the store is still valid and holds the earlier samples
      plus one per row's (dataset, identifier). */
  lemma {:induction false} AfterRowsKeys(c: Config, st: Store, codebook: Codebook, dataset: string, instrument: string,
                                         items: seq<(string, Column)>, rows: seq<Row>)
    requires StoreValid(c, st) && WellFormed(c) && instrument in c.scores
    requires AfterRows(c, st, codebook, dataset, instrument, items, rows).Ok?
    ensures StoreValid(c, AfterRows(c, st, codebook, dataset, instrument, items, rows).value)
    ensures AfterRows(c, st, codebook, dataset, instrument, items, rows).value.Keys
         == st.Keys + set i | 0 <= i < |rows| :: (dataset, rows[i].identifier)
    decreases |rows|
  {
    if |rows| > 0 {
      var r := rows[0];
      var block := RowBlock(c, codebook, instrument, items, r);
      var st' := AfterRow(c, st, dataset, instrument, r, block).value;
      AfterRowValid(c, st, dataset, instrument, r, block);
      AfterRowKeys(c, st, dataset, instrument, r, block);
      AfterRowsKeys(c, st', codebook, dataset, instrument, items, rows[1..]);
      RowKeysCons(dataset, rows);
    }
  }

  /** A row adds its own key to the store and no other. */
  lemma {:induction false} AfterRowKeys(c: Config, st: Store, dataset: string, instrument: string, r: Row, block: Result<Dict>)
    requires StoreValid(c, st)
    requires AfterRow(c, st, dataset, instrument, r, block).Ok?
    ensures AfterRow(c, st, dataset, instrument, r, block).value.Keys == st.Keys + {(dataset, r.identifier)}
  {
  }

  /** The keys of a file's rows: the first row's and the rest's. */
  lemma {:induction false} RowKeysCons(dataset: string, rows: seq<Row>)
    requires |rows| > 0
    ensures (set i | 0 <= i < |rows| :: (dataset, rows[i].identifier))
         == {(dataset, rows[0].identifier)} + set i | 0 <= i < |rows[1..]| :: (dataset, rows[1..][i].identifier)
  {
    var ids := set i | 0 <= i < |rows| :: (dataset, rows[i].identifier);
    var ids' := set i | 0 <= i < |rows[1..]| :: (dataset, rows[1..][i].identifier);
    forall k | k in ids ensures k in {(dataset, rows[0].identifier)} + ids' {
      var i :| 0 <= i < |rows| && k == (dataset, rows[i].identifier);
      if i > 0 { assert rows[1..][i - 1] == rows[i]; }
    }
    forall k | k in ids' ensures k in ids {
      var i :| 0 <= i < |rows[1..]| && k == (dataset, rows[1..][i].identifier);
      assert rows[1..][i] == rows[i + 1];
    }
  }

  /** Lines 217-224 step by step: the fresh block of an instrument. */
  method InitBlock(age: Value, date: Value, scores: seq<string>) returns (b: Dict)
    ensures b == FreshBlock(age, date, scores)
  {
    b := map["age" := age, "interview_date" := date];
    var i := 0;
    while i < |scores|
      invariant 0 <= i <= |scores|
      invariant b == map["age" := age, "interview_date" := date] + map s | s in scores[..i] :: Null
    {
      b := b[scores[i] := Null];
      assert scores[..i + 1] == scores[..i] + [scores[i]];
      i := i + 1;
    }
    assert scores[..i] == scores;
  }

  /** Lines 176-194 step by step: merge the row into a stored sample and
      collect the fields whose conflict is reported. */
  method MergeRow(s0: Dict, r: Row) returns (sample: Dict, reports: seq<string>)
    requires HasDemographics(s0)
    ensures sample == Merge(s0, r)
    ensures reports == Conflicts(s0, r)
  {
    var g, rc, e, f;
    sample, g := MergeOne(s0, "gender", r.gender);
    sample, rc := MergeOne(sample, "race", r.race);
    sample, e := MergeOne(sample, "ethnicity", r.ethnicity);
    sample, f := MergeOne(sample, "family", r.family);
    reports := (if g then ["gender"] else []) + (if rc then ["race"] else [])
             + (if e then ["ethnicity"] else []) + (if f then ["family"] else []);
  }

  /** One demographic field: a None takes the row's value, a set value is
      kept and a differing non-null row value is reported. */
  method MergeOne(s0: Dict, f: string, incoming: Value) returns (sample: Dict, report: bool)
    requires f in s0
    ensures sample == s0[f := MergeField(s0[f], incoming)]
    ensures report <==> s0[f] != Null && incoming != Null && s0[f] != incoming
  {
    sample := s0;
    report := false;
    if sample[f] == Null {
      sample := sample[f := incoming];
    } else {
      if incoming != Null && sample[f] != incoming {
        report := true;
      }
      assert s0[f := s0[f]] == s0;
    }
  }

  /** Lines 217-268: the block of one row, with KeyError where an instrument
      table has no entry. */
  method BuildBlock(c: Config, codebook: Codebook, instrument: string, items: seq<(string, Column)>, r: Row)
    returns (b: Result<Dict>)
    ensures b == RowBlock(c, codebook, instrument, items, r)
  {
    if instrument !in c.scores || instrument !in c.exceptions || instrument !in codebook || instrument !in c.missing {
      return Err("KeyError");
    }
    var b0 := InitBlock(r.age, r.interviewDate, c.scores[instrument]);
    b := RecodeRow(b0, r.cells, items, TablesFor(c, instrument, codebook));
  }

  /** Lines 211-268 on the merged sample: skip a bad sample, otherwise
      replace the instrument block when the row is more recent. */
  method UpdateSample(c: Config, codebook: Codebook, instrument: string, items: seq<(string, Column)>, r: Row,
                      sample: Dict, bad: bool) returns (res: Result<Dict>)
    ensures res == UpdatedSample(sample, instrument, r.age, RowBlock(c, codebook, instrument, items, r), bad)
  {
    if bad {
      return Ok(sample);
    }
    var rep := Replaces(sample, instrument, r.age);
    if rep.Err? {
      return Err(rep.message);
    }
    if !rep.value {
      return Ok(sample);
    }
    var block := BuildBlock(c, codebook, instrument, items, r);
    if block.Err? {
      return Err(block.message);
    }
    return Ok(sample[instrument := Obj(block.value)]);
  }

  // ---------------------------------------------------------------------------
  // Medical History
  // ---------------------------------------------------------------------------

  const HISTORY := "Medical History"

  /** Lines 524-533: the categories of the Medical History block. */
  const HISTORY_FLAGS := ["ID", "Seizures", "Tourette or Tic Disorder", "Mood Disorder", "Anxiety Disorder",
    "Psychotic Disorder", "Autoimmune/Allergic", "Behavior"]

  /** Every category starts at 0. */
  function ZeroFlags(): (b: Dict)
    ensures b.Keys == set f | f in HISTORY_FLAGS
    ensures forall f :: f in b ==> b[f] == Int(0)
  {
    map f | f in HISTORY_FLAGS :: Int(0)
  }

  /** Line 534: the secondary diagnoses of a line, stripped, lower-cased and
      split on "; ". */
  function Diagnoses(text: string): seq<string> {
    Split(Lower(Strip(text)), "; ")
  }

  /** Lines 534-538: a known diagnosis sets its category to 1. */
  function FlagDiagnoses(flags: Dict, ds: seq<string>, categories: map<string, string>): Dict
    decreases |ds|
  {
    if |ds| == 0 then flags
    else
      var next := if ds[0] in categories then flags[categories[ds[0]] := Int(1)] else flags;
      FlagDiagnoses(next, ds[1..], categories)
  }

  /** The diagnoses without a category (`not_found`). */
  function Unmatched(ds: seq<string>, categories: map<string, string>): set<string> {
    set d | d in ds && d !in categories
  }

  /** The Medical History block of one line's diagnosis text. */
  function HistoryBlock(text: string, categories: map<string, string>): Dict {
    FlagDiagnoses(ZeroFlags(), Diagnoses(text), categories)
  }

  /** The categories a list of diagnoses hits. */
  function Hits(ds: seq<string>, categories: map<string, string>): set<string> {
    set d | d in ds && d in categories :: categories[d]
  }

  /** The flags after a fold: exactly the starting keys plus the categories
      hit; a hit category is 1, any other keeps its starting value. */
  lemma {:induction false} FlagDiagnosesFlags(flags: Dict, ds: seq<string>, categories: map<string, string>)
    ensures FlagDiagnoses(flags, ds, categories).Keys == flags.Keys + Hits(ds, categories)
    ensures forall k :: k in Hits(ds, categories) ==> FlagDiagnoses(flags, ds, categories)[k] == Int(1)
    ensures forall k :: k in flags && k !in Hits(ds, categories) ==> FlagDiagnoses(flags, ds, categories)[k] == flags[k]
    decreases |ds|
  {
    if |ds| > 0 {
      var next := if ds[0] in categories then flags[categories[ds[0]] := Int(1)] else flags;
      FlagDiagnosesFlags(next, ds[1..], categories);
      assert Hits(ds, categories) == Hits(ds[1..], categories) + (if ds[0] in categories then {categories[ds[0]]} else {}) by {
        assert ds == [ds[0]] + ds[1..];
      }
    } else {
      assert Hits(ds, categories) == {};
    }
  }

  /** A category of the block is 1 exactly when one of the line's diagnoses
      belongs to it, and every value is 0 or 1. */
  lemma {:induction false} HistoryBlockFlags(text: string, categories: map<string, string>)
    ensures HistoryBlock(text, categories).Keys == (set f | f in HISTORY_FLAGS) + Hits(Diagnoses(text), categories)
    ensures forall k :: k in HistoryBlock(text, categories) ==>
      (HistoryBlock(text, categories)[k] == Int(1) <==> k in Hits(Diagnoses(text), categories))
    ensures forall k :: k in HistoryBlock(text, categories) ==>
      HistoryBlock(text, categories)[k] in {Int(0), Int(1)}
  {
    FlagDiagnosesFlags(ZeroFlags(), Diagnoses(text), categories);
  }

  /** One more diagnosis adds itself to the unmatched ones when it has no
      category. */
  lemma {:induction false} UnmatchedSnoc(ds: seq<string>, i: nat, categories: map<string, string>)
    requires i < |ds|
    ensures Unmatched(ds[..i + 1], categories)
         == Unmatched(ds[..i], categories) + (if ds[i] in categories then {} else {ds[i]})
  {
    assert ds[..i + 1] == ds[..i] + [ds[i]];
  }

  /** Lines 534-538 for the diagnosis text of one line. */
  method FlagHistory(text: string, categories: map<string, string>) returns (block: Dict, notFound: set<string>)
    ensures block == HistoryBlock(text, categories)
    ensures notFound == Unmatched(Diagnoses(text), categories)
  {
    var ds := Split(Lower(Strip(text)), "; ");
    block, notFound := FlagAll(ds, categories);
  }

  /** Lines 534-538 step by step, on the split diagnoses. */
  method FlagAll(ds: seq<string>, categories: map<string, string>) returns (block: Dict, notFound: set<string>)
    ensures block == FlagDiagnoses(ZeroFlags(), ds, categories)
    ensures notFound == Unmatched(ds, categories)
  {
    block := ZeroFlags();
    notFound := {};
    var i := 0;
    assert ds[0..] == ds;
    while i < |ds|
      invariant 0 <= i <= |ds|
      invariant FlagDiagnoses(ZeroFlags(), ds, categories) == FlagDiagnoses(block, ds[i..], categories)
      invariant notFound == Unmatched(ds[..i], categories)
    {
      UnmatchedSnoc(ds, i, categories);
      assert ds[i..][0] == ds[i] && ds[i..][1..] == ds[i + 1..];
      if ds[i] in categories {
        block := block[categories[ds[i]] := Int(1)];
      } else {
        notFound := notFound + {ds[i]};
      }
      i := i + 1;
    }
    assert ds[..i] == ds;
  }

  /** Lines 520-538 for one line: the line names a sample by its first
      tab-separated field; a known sample gets a fresh Medical History block
      from the second field, which must then exist. */
  function AfterHistoryLine(st: Store, dataset: string, line: string, categories: map<string, string>)
    : Result<(Store, set<string>)>
  {
    var pieces := Split(line, "\t");
    var key := (dataset, pieces[0]);
    if key !in st then Ok((st, {}))
    else if |pieces| < 2 then Err("IndexError")
    else Ok((st[key := st[key][HISTORY := Obj(HistoryBlock(pieces[1], categories))]],
             Unmatched(Diagnoses(pieces[1]), categories)))
  }

  /** The data lines of the history file in order. */
  function AfterHistoryLines(st: Store, dataset: string, lines: seq<string>, categories: map<string, string>)
    : Result<(Store, set<string>)>
    decreases |lines|
  {
    if |lines| == 0 then Ok((st, {}))
    else
      var step :- AfterHistoryLine(st, dataset, lines[0], categories);
      var rest :- AfterHistoryLines(step.0, dataset, lines[1..], categories);
      Ok((rest.0, step.1 + rest.1))
  }

  /** Line 519: the header line is skipped; an empty file raises
      StopIteration. */
  function AfterHistory(st: Store, dataset: string, lines: seq<string>, categories: map<string, string>)
    : Result<(Store, set<string>)>
  {
    if |lines| == 0 then Err("StopIteration")
    else AfterHistoryLines(st, dataset, lines[1..], categories)
  }

  /** A history line adds no sample and changes only the Medical History
      field of the sample it names. */
  lemma {:induction false} AfterHistoryLineFrame(st: Store, dataset: string, line: string, categories: map<string, string>,
                              k: (string, string), f: string)
    requires AfterHistoryLine(st, dataset, line, categories).Ok?
    requires f != HISTORY
    ensures var st' := AfterHistoryLine(st, dataset, line, categories).value.0;
      st'.Keys == st.Keys
      && (k in st ==> (f in st'[k] <==> f in st[k]) && (f in st[k] ==> st'[k][f] == st[k][f]))
  {
  }

  /** The history keeps every sample and every field other than the Medical
      History block. */
  lemma {:induction false} AfterHistoryLinesFrame(st: Store, dataset: string, lines: seq<string>,
                                                  categories: map<string, string>, k: (string, string), f: string)
    requires AfterHistoryLines(st, dataset, lines, categories).Ok?
    requires f != HISTORY
    ensures var st' := AfterHistoryLines(st, dataset, lines, categories).value.0;
      st'.Keys == st.Keys
      && (k in st ==> (f in st'[k] <==> f in st[k]) && (f in st[k] ==> st'[k][f] == st[k][f]))
    decreases |lines|
  {
    if |lines| > 0 {
      var step := AfterHistoryLine(st, dataset, lines[0], categories).value;
      AfterHistoryLineFrame(st, dataset, lines[0], categories, k, f);
      AfterHistoryLinesFrame(step.0, dataset, lines[1..], categories, k, f);
    }
  }

  /** The history keeps the store valid. */
  lemma {:induction false} AfterHistoryLineValid(c: Config, st: Store, dataset: string, line: string, categories: map<string, string>)
    requires WellFormed(c) && StoreValid(c, st)
    requires AfterHistoryLine(st, dataset, line, categories).Ok?
    ensures StoreValid(c, AfterHistoryLine(st, dataset, line, categories).value.0)
  {
    var pieces := Split(line, "\t");
    var key := (dataset, pieces[0]);
    if key in st && |pieces| >= 2 {
      var s := st[key][HISTORY := Obj(HistoryBlock(pieces[1], categories))];
      assert Keyed(key, s);
      if key in c.bad {
        assert Blockless(c, st[key]);
      }
      StoreUpdateValid(c, st, key, s);
    }
  }

  lemma {:induction false} AfterHistoryLinesValid(c: Config, st: Store, dataset: string, lines: seq<string>,
                                                  categories: map<string, string>)
    requires WellFormed(c) && StoreValid(c, st)
    requires AfterHistoryLines(st, dataset, lines, categories).Ok?
    ensures StoreValid(c, AfterHistoryLines(st, dataset, lines, categories).value.0)
    decreases |lines|
  {
    if |lines| > 0 {
      var step := AfterHistoryLine(st, dataset, lines[0], categories).value;
      AfterHistoryLineValid(c, st, dataset, lines[0], categories);
      AfterHistoryLinesValid(c, step.0, dataset, lines[1..], categories);
    }
  }

  /** The rest of a history with `found` already collected. */
  function AfterThen(found: set<string>, rest: Result<(Store, set<string>)>): Result<(Store, set<string>)> {
    if rest.Err? then rest else Ok((rest.value.0, found + rest.value.1))
  }

  lemma {:induction false} AfterThenNothing(rest: Result<(Store, set<string>)>)
    ensures AfterThen({}, rest) == rest
  {
    if rest.Ok? {
      assert {} + rest.value.1 == rest.value.1;
    }
  }

  lemma {:induction false} AfterThenStep(found: set<string>, step: (Store, set<string>), rest: Result<(Store, set<string>)>)
    ensures AfterThen(found, (var r :- rest; Ok((r.0, step.1 + r.1)))) == AfterThen(found + step.1, rest)
  {
    if rest.Ok? {
      assert found + (step.1 + rest.value.1) == found + step.1 + rest.value.1;
    }
  }

  // ---------------------------------------------------------------------------
  // Diagnosis categories
  // ---------------------------------------------------------------------------

  /** Lines 511-514: each line is stripped and split on tabs; the lower-cased
      first field maps to the second, later lines overriding earlier ones.
      A line without a tab raises IndexError. */
  function Categories(m: map<string, string>, lines: seq<string>): Result<map<string, string>>
    decreases |lines|
  {
    if |lines| == 0 then Ok(m)
    else
      var pieces := Split(Strip(lines[0]), "\t");
      if |pieces| < 2 then Err("IndexError")
      else Categories(m[Lower(pieces[0]) := pieces[1]], lines[1..])
  }

  /** Every diagnosis key is lower case, so the lower-cased diagnoses of the
      history file can match it. */
  lemma {:induction false} CategoriesLowerCase(m: map<string, string>, lines: seq<string>)
    requires forall k :: k in m ==> Lower(k) == k
    requires Categories(m, lines).Ok?
    ensures forall k :: k in Categories(m, lines).value ==> Lower(k) == k
    decreases |lines|
  {
    if |lines| > 0 {
      var pieces := Split(Strip(lines[0]), "\t");
      LowerIdempotent(pieces[0]);
      CategoriesLowerCase(m[Lower(pieces[0]) := pieces[1]], lines[1..]);
    }
  }

  /** The last line naming a diagnosis decides its category. */
  lemma {:induction false} CategoriesLastWins(m: map<string, string>, lines: seq<string>)
    requires |lines| > 0 && Categories(m, lines).Ok?
    ensures var pieces := Split(Strip(lines[|lines| - 1]), "\t");
      |pieces| >= 2 && Lower(pieces[0]) in Categories(m, lines).value
      && Categories(m, lines).value[Lower(pieces[0])] == pieces[1]
    decreases |lines|
  {
    var pieces := Split(Strip(lines[0]), "\t");
    if |lines| > 1 {
      CategoriesLastWins(m[Lower(pieces[0]) := pieces[1]], lines[1..]);
      assert lines[1..][|lines[1..]| - 1] == lines[|lines| - 1];
    }
  }

  /** Lines 511-514 step by step. */
  method ReadCategories(lines: seq<string>) returns (r: Result<map<string, string>>)
    ensures r == Categories(map[], lines)
  {
    var m: map<string, string> := map[];
    var i := 0;
    while i < |lines|
      invariant 0 <= i <= |lines|
      invariant Categories(map[], lines) == Categories(m, lines[i..])
    {
      var pieces := Split(Strip(lines[i]), "\t");
      if |pieces| < 2 {
        return Err("IndexError");
      }
      m := m[Lower(pieces[0]) := pieces[1]];
      assert lines[i..][1..] == lines[i + 1..];
      i := i + 1;
    }
    assert lines[i..] == [];
    return Ok(m);
  }

  // ---------------------------------------------------------------------------
  // Output order
  // ---------------------------------------------------------------------------

  /** Keys in strictly increasing (dataset, identifier) order. */
  predicate StrictlySorted(keys: seq<(string, string)>) {
    forall i, j :: 0 <= i < j < |keys| ==> PairLess(keys[i], keys[j])
  }

  /** The sorted listing of a set of keys is unique. */
  lemma {:induction false} SortedListingUnique(a: seq<(string, string)>, b: seq<(string, string)>)
    requires StrictlySorted(a) && StrictlySorted(b)
    requires forall k :: k in a <==> k in b
    ensures a == b
    decreases |a|
  {
    assert |b| > 0 ==> b[0] in a;
    assert |a| > 0 ==> a[0] in b;
    if |a| > 0 {
      assert a[0] in a && b[0] in b;
      assert a[0] == b[0] by {
        if a[0] != b[0] {
          var i :| 0 <= i < |b| && b[i] == a[0];
          var j :| 0 <= j < |a| && a[j] == b[0];
          assert PairLess(b[0], b[i]) && PairLess(a[0], a[j]);
          PairLessAsymmetric(a[0], b[0]);
        }
      }
      forall k ensures k in a[1..] <==> k in b[1..] {
        if k in a[1..] {
          var x :| 0 <= x < |a[1..]| && a[1..][x] == k;
          assert PairLess(a[0], a[x + 1]);
          PairLessAsymmetric(a[0], k);
          assert k in b;
          var y :| 0 <= y < |b| && b[y] == k;
          assert y != 0 && b[1..][y - 1] == k;
        }
        if k in b[1..] {
          var y :| 0 <= y < |b[1..]| && b[1..][y] == k;
          assert PairLess(b[0], b[y + 1]);
          PairLessAsymmetric(b[0], k);
          assert k in a;
          var x :| 0 <= x < |a| && a[x] == k;
          assert x != 0 && a[1..][x - 1] == k;
        }
      }
      SortedListingUnique(a[1..], b[1..]);
      assert a == [a[0]] + a[1..] && b == [b[0]] + b[1..];
    }
  }

  /** A key in its place among strictly sorted keys. */
  method InsertSorted(keys: seq<(string, string)>, k: (string, string)) returns (t: seq<(string, string)>)
    requires StrictlySorted(keys) && k !in keys
    ensures StrictlySorted(t)
    ensures (set x | x in t) == (set x | x in keys) + {k}
  {
    var i := 0;
    while i < |keys| && PairLess(keys[i], k)
      invariant 0 <= i <= |keys|
      invariant forall j :: 0 <= j < i ==> PairLess(keys[j], k)
    {
      i := i + 1;
    }
    forall j | i <= j < |keys| ensures PairLess(k, keys[j]) {
      PairLessTrichotomy(k, keys[i]);
      if j > i {
        PairLessTransitive(k, keys[i], keys[j]);
      }
    }
    t := keys[..i] + [k] + keys[i..];
    assert keys == keys[..i] + keys[i..];
  }

  /** A set of keys in strictly increasing order. */
  method SortKeys(ks: set<(string, string)>) returns (keys: seq<(string, string)>)
    ensures StrictlySorted(keys) && (set k | k in keys) == ks
  {
    var rest := ks;
    keys := [];
    while rest != {}
      invariant rest <= ks
      invariant StrictlySorted(keys) && (set k | k in keys) == ks - rest
      decreases rest
    {
      var k :| k in rest;
      keys := InsertSorted(keys, k);
      rest := rest - {k};
    }
  }

  // ---------------------------------------------------------------------------
  // The store
  // ---------------------------------------------------------------------------

  /** `identifier_to_samples`, updated row by row as the source files are
      read. Every method returns false where the source raises. */
  class RecordStore {
    var samples: Store
    const config: Config

    predicate Valid()
      reads this
    {
      WellFormed(config) && StoreValid(config, samples)
    }

    constructor (config: Config)
      requires WellFormed(config)
      ensures Valid() && this.config == config && samples == map[]
    {
      this.config := config;
      samples := map[];
    }

    /** Lines 165-268 for one row. Returns the demographic fields whose
        conflict is reported, each compared with the row's own value. */
    method ConvertRow(codebook: Codebook, dataset: string, instrument: string, items: seq<(string, Column)>, r: Row)
      returns (ok: bool, reports: seq<string>)
      requires Valid() && instrument in config.scores
      modifies this
      ensures ok == AfterRow(config, old(samples), dataset, instrument, r, RowBlock(config, codebook, instrument, items, r)).Ok?
      ensures ok ==> samples == AfterRow(config, old(samples), dataset, instrument, r,
                                         RowBlock(config, codebook, instrument, items, r)).value
      ensures ok ==> Valid()
      ensures var key := (dataset, r.identifier);
        reports == if key in old(samples) then Conflicts(old(samples)[key], r) else []
    {
      var key := (dataset, r.identifier);
      var sample: Dict;
      reports := [];
      if key in samples {
        assert Keyed(key, samples[key]);
        sample, reports := MergeRow(samples[key], r);
      } else {
        sample := NewSample(dataset, r);
      }
      assert sample == MergedSample(old(samples), dataset, r);
      // The source stores the sample object at once and then updates it
      // in place; the store is written once with the updated sample.
      var updated := UpdateSample(config, codebook, instrument, items, r, sample, key in config.bad);
      if updated.Err? {
        ok := false;
        return;
      }
      samples := samples[key := updated.value];
      ok := true;
      AfterRowValid(config, old(samples), dataset, instrument, r, RowBlock(config, codebook, instrument, items, r));
    }

    /** Lines 163-270: every row of one file, in order. */
    method ConvertPhenotypes(codebook: Codebook, dataset: string, instrument: string, items: seq<(string, Column)>,
                             rows: seq<Row>) returns (ok: bool)
      requires Valid() && instrument in config.scores
      modifies this
      ensures ok == AfterRows(config, old(samples), codebook, dataset, instrument, items, rows).Ok?
      ensures ok ==> samples == AfterRows(config, old(samples), codebook, dataset, instrument, items, rows).value
      ensures ok ==> Valid()
    {
      var i := 0;
      while i < |rows|
        invariant 0 <= i <= |rows|
        invariant Valid()
        invariant AfterRows(config, old(samples), codebook, dataset, instrument, items, rows)
               == AfterRows(config, samples, codebook, dataset, instrument, items, rows[i..])
      {
        ghost var before := samples;
        var rowOk, _ := ConvertRow(codebook, dataset, instrument, items, rows[i]);
        if !rowOk {
          assert AfterRows(config, before, codebook, dataset, instrument, items, rows[i..]).Err?;
          return false;
        }
        assert rows[i..][1..] == rows[i + 1..];
        i := i + 1;
      }
      assert rows[i..] == [];
      return true;
    }

    /** Lines 520-538 for one line of the history file. */
    method HistoryLine(dataset: string, line: string, categories: map<string, string>)
      returns (ok: bool, missed: set<string>)
      requires Valid()
      modifies this
      ensures ok == AfterHistoryLine(old(samples), dataset, line, categories).Ok?
      ensures ok ==> (samples, missed) == AfterHistoryLine(old(samples), dataset, line, categories).value
      ensures ok ==> Valid()
    {
      missed := {};
      var pieces := Split(line, "\t");
      var key := (dataset, pieces[0]);
      if key in samples {
        if |pieces| < 2 {
          return false, missed;
        }
        var block;
        block, missed := FlagHistory(pieces[1], categories);
        samples := samples[key := samples[key][HISTORY := Obj(block)]];
      }
      AfterHistoryLineValid(config, old(samples), dataset, line, categories);
      return true, missed;
    }

    /** Lines 516-538: the Medical History of every sample the file names;
        returns the diagnoses without a category. */
    method AddMedicalHistory(dataset: string, lines: seq<string>, categories: map<string, string>)
      returns (ok: bool, notFound: set<string>)
      requires Valid()
      modifies this
      ensures ok == AfterHistory(old(samples), dataset, lines, categories).Ok?
      ensures ok ==> (samples, notFound) == AfterHistory(old(samples), dataset, lines, categories).value
      ensures ok ==> Valid()
    {
      notFound := {};
      if |lines| == 0 {
        return false, notFound;
      }
      var i := 1;
      AfterThenNothing(AfterHistoryLines(samples, dataset, lines[1..], categories));
      while i < |lines|
        invariant 1 <= i <= |lines|
        invariant Valid()
        invariant AfterHistoryLines(old(samples), dataset, lines[1..], categories)
               == AfterThen(notFound, AfterHistoryLines(samples, dataset, lines[i..], categories))
      {
        ghost var before := samples;
        ghost var found := notFound;
        assert lines[i..][0] == lines[i] && lines[i..][1..] == lines[i + 1..];
        var lineOk, missed := HistoryLine(dataset, lines[i], categories);
        if !lineOk {
          return false, notFound;
        }
        notFound := notFound + missed;
        AfterThenStep(found, AfterHistoryLine(before, dataset, lines[i], categories).value,
                      AfterHistoryLines(samples, dataset, lines[i + 1..], categories));
        i := i + 1;
      }
      assert lines[i..] == [];
      assert notFound + {} == notFound;
      return true, notFound;
    }

    /** Lines 1223-1226: the bad samples are deleted. */
    method RemoveBadSamples()
      requires Valid()
      modifies this
      ensures samples == old(samples) - config.bad
      ensures Valid()
    {
      var todo := config.bad;
      while todo != {}
        invariant todo <= config.bad
        invariant samples == old(samples) - (config.bad - todo)
        invariant Valid()
        decreases todo
      {
        var id :| id in todo;
        RemoveStep(old(samples), config.bad, todo, id);
        if id in samples {
          RemoveKeepsValid(config, samples, {id});
          samples := samples - {id};
        } else {
          assert samples - {id} == samples;
        }
        todo := todo - {id};
      }
    }

    /** Lines 1228-1230: the samples ordered by (dataset, identifier), with
        the key of each. */
    method Listing() returns (out: seq<Dict>, keys: seq<(string, string)>)
      requires Valid()
      ensures StrictlySorted(keys) && (set k | k in keys) == samples.Keys
      ensures |out| == |keys| && forall i :: 0 <= i < |out| ==> keys[i] in samples && out[i] == samples[keys[i]]
      ensures forall i :: 0 <= i < |out| ==> Keyed(keys[i], out[i])
    {
      var st := samples;
      keys := SortKeys(st.Keys);
      out := [];
      var i := 0;
      while i < |keys|
        invariant 0 <= i <= |keys|
        invariant |out| == i && forall j :: 0 <= j < i ==> keys[j] in st && out[j] == st[keys[j]]
      {
        assert keys[i] in (set k | k in keys);
        out := out + [st[keys[i]]];
        i := i + 1;
      }
    }

    /** Lines 1223-1230: drop the bad samples, then list the rest in
        (dataset, identifier) order. */
    method Finalize() returns (out: seq<Dict>, keys: seq<(string, string)>)
      requires Valid()
      modifies this
      ensures samples == old(samples) - config.bad
      ensures Valid()
      ensures StrictlySorted(keys) && (set k | k in keys) == samples.Keys
      ensures |out| == |keys| && forall i :: 0 <= i < |out| ==> keys[i] in samples && out[i] == samples[keys[i]]
    {
      RemoveBadSamples();
      out, keys := Listing();
    }
  }
}
