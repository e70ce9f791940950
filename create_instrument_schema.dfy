/** The schema builder for one instrument: every row of the column-name
    table that belongs to the instrument becomes a schema property named by
    a normalised item id, typed ordinal, interval or (for the `a` companion)
    categorical from the options listed in the row. */
module CreateInstrumentSchema {
  import opened Wrappers
  import opened Json
  import opened Strings
  import opened Subsequences
  import opened SchemaDict
  import AggregatePhenotype

  // ---------------------------------------------------------------------------
  // Item ids (lines 26-28)
  // ---------------------------------------------------------------------------

  /** Python's clamped slices `s[:n]` and `s[n:]`. */
  function Take(s: string, n: nat): string {
    if n <= |s| then s[..n] else s
  }

  function Drop(s: string, n: nat): string {
    if n <= |s| then s[n..] else []
  }

  /** Length of the leading run of digits: the `index(False)` over the
      `isdigit` flags with a `False` appended. */
  function DigitRun(s: string): (n: nat)
    ensures n <= |s|
    ensures AllDigits(s[..n])
    ensures n < |s| ==> !IsDigit(s[n])
  {
    if |s| == 0 || !IsDigit(s[0]) then 0
    else
      var n := 1 + DigitRun(s[1..]);
      assert s[..n] == [s[0]] + s[1..][..n - 1];
      n
  }

  /** Line 28: 'Q', the first `qheader` characters, the digit run after them
      zero-filled to two places, then the rest of the question. */
  function ItemId(question: string, qheader: nat): string {
    var rest := Drop(question, qheader);
    var n := DigitRun(rest);
    "Q" + Take(question, qheader) + ZFill(rest[..n], 2) + rest[n..]
  }

  /** The id keeps the header and the tail of the question and carries the
      item number as a digit field of at least two places with the same
      value: only leading zeros are added, and only as many as the field
      lacks. */
  lemma {:induction false} ItemIdSpec(question: string, qheader: nat)
    ensures var rest := Drop(question, qheader);
            var run := rest[..DigitRun(rest)];
            var field := ZFill(run, 2);
            ItemId(question, qheader) == "Q" + Take(question, qheader) + field + rest[|run|..] &&
            |field| == (if |run| >= 2 then |run| else 2) &&
            AllDigits(field) && DigitsValue(field) == DigitsValue(run) &&
            (|run| < |rest| ==> !IsDigit(rest[|run|]))
  {
    var rest := Drop(question, qheader);
    var run := rest[..DigitRun(rest)];
    ZFillValue(run, 2);
  }

  /** An id whose digit run already has two places is the question with a
      'Q' in front. */
  lemma {:induction false} ItemIdCanonical(question: string, qheader: nat)
    requires qheader <= |question| && DigitRun(Drop(question, qheader)) >= 2
    ensures ItemId(question, qheader) == "Q" + question
  {
    var rest := Drop(question, qheader);
    var n := DigitRun(rest);
    assert question == question[..qheader] + rest[..n] + rest[n..];
  }

  // ---------------------------------------------------------------------------
  // Options (lines 34-36)
  // ---------------------------------------------------------------------------

  /** `x[:x.find('=')]`: the text before the first '='. Without an '=' the
      index is -1, which drops the last character instead. */
  function OptionCode(x: string): string {
    match IndexOf(x, '=')
    case Some(i) => x[..i]
    case None => if |x| == 0 then x else x[..|x| - 1]
  }

  /** `int(...)` of every option code; ValueError on the first that is not
      an integer. */
  function ParseCodes(words: seq<string>): Result<seq<int>>
    decreases |words|
  {
    if |words| == 0 then Ok([])
    else
      match OptionValue(words[0])
      case None => Err("ValueError")
      case Some(v) =>
        var rest :- ParseCodes(words[1..]);
        Ok([v] + rest)
  }

  /** `int()` of one option code. */
  function OptionValue(x: string): Option<int> {
    ParseInt(OptionCode(x))
  }

  /** Parsing succeeds iff every code parses. */
  lemma {:induction false} ParseCodesOk(words: seq<string>)
    ensures ParseCodes(words).Ok? <==> forall j :: 0 <= j < |words| ==> OptionValue(words[j]).Some?
    decreases |words|
  {
    if |words| > 0 {
      ParseCodesOk(words[1..]);
      assert forall j :: 1 <= j < |words| ==> words[j] == words[1..][j - 1];
    }
  }

  /** A successful parse yields one value per word, in order. */
  lemma {:induction false} ParseCodesValues(words: seq<string>)
    requires ParseCodes(words).Ok?
    ensures |ParseCodes(words).value| == |words|
    ensures forall j :: 0 <= j < |words| ==> OptionValue(words[j]) == Some(ParseCodes(words).value[j])
    decreases |words|
  {
    if |words| > 0 {
      ParseCodesValues(words[1..]);
      assert forall j :: 1 <= j < |words| ==> words[j] == words[1..][j - 1];
    }
  }

  /** Line 34: the option list of a row. */
  function Options(cell: string): Result<seq<int>> {
    ParseCodes(SplitWhitespace(cell))
  }

  /** Line 35: the options that are at most 6, in order. */
  function Ordinals(options: seq<int>): seq<int>
    decreases |options|
  {
    if |options| == 0 then []
    else (if options[0] <= 6 then [options[0]] else []) + Ordinals(options[1..])
  }

  /** Line 36: the options above 6, in order. */
  function Coded(options: seq<int>): seq<int>
    decreases |options|
  {
    if |options| == 0 then []
    else (if options[0] > 6 then [options[0]] else []) + Coded(options[1..])
  }

  /** Each list holds only its side of the threshold. */
  lemma {:induction false} PartitionBounds(options: seq<int>)
    ensures forall j :: 0 <= j < |Ordinals(options)| ==> Ordinals(options)[j] <= 6
    ensures forall j :: 0 <= j < |Coded(options)| ==> Coded(options)[j] > 6
    decreases |options|
  {
    if |options| > 0 {
      PartitionBounds(options[1..]);
    }
  }

  /** Every option lands in exactly one of the two lists. */
  lemma {:induction false} PartitionCounts(options: seq<int>)
    ensures multiset(Ordinals(options)) + multiset(Coded(options)) == multiset(options)
    decreases |options|
  {
    if |options| > 0 {
      var x, rest := options[0], options[1..];
      PartitionCounts(rest);
      assert options == [x] + rest;
      assert multiset(options) == multiset{x} + multiset(rest);
      if x <= 6 {
        assert Ordinals(options) == [x] + Ordinals(rest);
        assert multiset(Ordinals(options)) == multiset{x} + multiset(Ordinals(rest));
        assert Coded(options) == Coded(rest);
      } else {
        assert Coded(options) == [x] + Coded(rest);
        assert multiset(Coded(options)) == multiset{x} + multiset(Coded(rest));
        assert Ordinals(options) == Ordinals(rest);
      }
    }
  }

  /** Both lists keep the order of the options. */
  lemma {:induction false} PartitionOrder(options: seq<int>)
    ensures IsSubsequence(Ordinals(options), options) && IsSubsequence(Coded(options), options)
    decreases |options|
  {
    if |options| > 0 {
      var rest := options[1..];
      PartitionOrder(rest);
      if options[0] <= 6 {
        assert Ordinals(options)[1..] == Ordinals(rest);
        assert Coded(options) == Coded(rest);
        SkipFirst(Coded(rest), options);
      } else {
        assert Coded(options)[1..] == Coded(rest);
        assert Ordinals(options) == Ordinals(rest);
        SkipFirst(Ordinals(rest), options);
      }
    }
  }

  // ---------------------------------------------------------------------------
  // Properties (lines 8-17, 38-59)
  // ---------------------------------------------------------------------------

  function Ints(xs: seq<int>): (vs: seq<Value>)
    ensures |vs| == |xs| && forall j :: 0 <= j < |xs| ==> vs[j] == Int(xs[j])
  {
    seq(|xs|, j requires 0 <= j < |xs| => Int(xs[j]))
  }

  /** Lines 9-13. */
  const AGE: Value := Obj(map[
    "description" := Str("Age in months at interview"),
    "type" := Arr([Str("integer"), Str("null")]),
    "minimum" := Int(0)])

  /** Lines 14-16. */
  const INTERVIEW_DATE: Value := Obj(map["type" := Arr([Str("string"), Str("null")])])

  /** Lines 39-43. */
  function OrdinalProperty(description: string, ordinal: seq<int>): Value {
    Obj(map[
      "description" := Str(description),
      "enum" := Arr([Null] + Ints(ordinal)),
      "data-type" := Str("ordinal")])
  }

  /** Line 49: the sentinel codes an interval answer may not take. */
  const EXCLUDED: seq<int> := [991, 992, 996, 997, 998, 999]

  /** Lines 45-51. */
  function IntervalProperty(description: string): Value {
    Obj(map[
      "description" := Str(description),
      "type" := Arr([Str("integer"), Str("null")]),
      "maximum" := Int(899),
      "not" := Obj(map["enum" := Arr(Ints(EXCLUDED))]),
      "data-type" := Str("interval")])
  }

  /** Lines 55-59. */
  function CodedProperty(description: string, coded: seq<int>): Value {
    Obj(map[
      "description" := Str("Coded: " + description),
      "enum" := Arr([Null, Int(0)] + Ints(coded)),
      "data-type" := Str("categorical")])
  }

  /** Line 44: a description that reads as an age or a duration. */
  predicate MentionsTime(description: string) {
    Contains(description, "Age") || Contains(description, "month") ||
    Contains(description, "year") || Contains(description, "Onset")
  }

  /** The coded set the recoder derives from a coded property is exactly
      the coded options. */
  lemma {:induction false} CodedPropertyCodes(description: string, coded: seq<int>)
    requires forall j :: 0 <= j < |coded| ==> coded[j] > 6
    ensures AggregatePhenotype.EnumOf(CodedProperty(description, coded)).Ok?
    ensures AggregatePhenotype.CodedSet(AggregatePhenotype.EnumOf(CodedProperty(description, coded)).value)
            == Ok(set v | v in Ints(coded))
  {
    var vs := Ints(coded);
    assert Null !in vs;
    assert Int(0) !in vs;
    AggregatePhenotype.CodedSetOfSchemaEnum(vs);
  }

  // ---------------------------------------------------------------------------
  // The properties dict and the row loop (lines 19-59)
  // ---------------------------------------------------------------------------

  /** Lines 8-17. */
  const INITIAL: Schema := Schema(map["age" := AGE, "interview_date" := INTERVIEW_DATE], ["age", "interview_date"])

  /** Line 28 for the question cell of a row. */
  function RowId(cell: string, qheader: nat): string
    requires ':' in cell
  {
    ItemId(SplitOnce(cell, ':').0, qheader)
  }

  /** Line 33: the description after the first ':', stripped. */
  function RowDescription(cell: string): string
    requires ':' in cell
  {
    Strip(SplitOnce(cell, ':').1)
  }

  /** Lines 35-59 for a new id: the ordinal or interval property under the
      id, then the categorical one under its `a` companion. */
  function AddItem(s: Schema, id: string, d: string, options: seq<int>): Schema {
    var ordinal := Ordinals(options);
    var coded := Coded(options);
    var s1 :=
      if |ordinal| > 0 then Put(s, id, OrdinalProperty(d, ordinal))
      else if MentionsTime(d) then Put(s, id, IntervalProperty(d))
      else s;
    if |coded| > 0 then Put(s1, id + "a", CodedProperty(d, coded)) else s1
  }

  /** Lines 22-59 for one row. Reading a cell past the end of the row raises
      IndexError; an option code that is not an integer raises ValueError. */
  function AddRow(s: Schema, row: seq<string>, instrument: string, qheader: nat): Result<Schema> {
    if |row| == 0 then Err("IndexError")
    else if row[0] != instrument then Ok(s)
    else if |row| < 4 then Err("IndexError")
    else if ':' !in row[3] then Ok(s)
    else if RowId(row[3], qheader) in s.properties then Ok(s)
    else if |row| < 5 then Err("IndexError")
    else
      var options :- Options(row[4]);
      Ok(AddItem(s, RowId(row[3], qheader), RowDescription(row[3]), options))
  }

  /** A row either leaves the dict alone or adds the item of a new id. */
  lemma {:induction false} AddRowCases(s: Schema, row: seq<string>, instrument: string, qheader: nat)
    requires AddRow(s, row, instrument, qheader).Ok?
    ensures AddRow(s, row, instrument, qheader).value == s ||
            (|row| >= 5 && ':' in row[3] && RowId(row[3], qheader) !in s.properties && Options(row[4]).Ok? &&
             AddRow(s, row, instrument, qheader).value ==
               AddItem(s, RowId(row[3], qheader), RowDescription(row[3]), Options(row[4]).value))
  {
  }

  /** The loop over the rows, stopping at the first exception. */
  function Build(s: Schema, rows: seq<seq<string>>, instrument: string, qheader: nat): Result<Schema>
    decreases |rows|
  {
    if |rows| == 0 then Ok(s)
    else
      var next :- AddRow(s, rows[0], instrument, qheader);
      Build(next, rows[1..], instrument, qheader)
  }

  /** Lines 22-24: rows of other instruments and rows without ':' add
      nothing. */
  lemma {:induction false} SkippedRows(s: Schema, row: seq<string>, instrument: string, qheader: nat)
    requires |row| >= 4 && (row[0] != instrument || ':' !in row[3])
    ensures AddRow(s, row, instrument, qheader) == Ok(s)
  {
  }

  /** Lines 30-31: a row whose id is already a property adds nothing. */
  lemma {:induction false} DuplicateRow(s: Schema, row: seq<string>, instrument: string, qheader: nat)
    requires |row| >= 4 && row[0] == instrument && ':' in row[3]
    requires RowId(row[3], qheader) in s.properties
    ensures AddRow(s, row, instrument, qheader) == Ok(s)
  {
  }

  /** Lines 33-59 for a new id: the id gets an ordinal property when some
      option is at most 6, else an interval property when the description
      reads as a time, else nothing; the `a` companion gets a categorical
      property exactly when some option is above 6, replacing any earlier
      one. */
  lemma {:induction false} NewItem(s: Schema, id: string, d: string, options: seq<int>)
    ensures var r := AddItem(s, id, d, options).properties;
            (|Ordinals(options)| > 0 ==> id in r && r[id] == OrdinalProperty(d, Ordinals(options))) &&
            (|Ordinals(options)| == 0 && MentionsTime(d) ==> id in r && r[id] == IntervalProperty(d)) &&
            (|Ordinals(options)| == 0 && !MentionsTime(d) && id !in s.properties ==> id !in r) &&
            (|Coded(options)| > 0 ==> id + "a" in r && r[id + "a"] == CodedProperty(d, Coded(options))) &&
            (|Coded(options)| == 0 && id + "a" !in s.properties ==> id + "a" !in r)
  {
    assert id != id + "a";
  }

  /** Line 27-59 for a row with a new id: the row adds the item of its id,
      its stripped description and its options. */
  lemma {:induction false} NewRow(s: Schema, row: seq<string>, instrument: string, qheader: nat)
    requires |row| >= 5 && row[0] == instrument && ':' in row[3]
    requires RowId(row[3], qheader) !in s.properties
    requires Options(row[4]).Ok?
    ensures AddRow(s, row, instrument, qheader) ==
            Ok(AddItem(s, RowId(row[3], qheader), RowDescription(row[3]), Options(row[4]).value))
  {
  }

  /** The item only writes its id and the `a` companion; every other key,
      and the order of the keys already present, stay. */
  lemma {:induction false} AddItemFrame(s: Schema, id: string, d: string, options: seq<int>)
    ensures var r := AddItem(s, id, d, options);
            s.keys <= r.keys && s.properties.Keys <= r.properties.Keys &&
            r.properties.Keys <= s.properties.Keys + {id, id + "a"} &&
            forall k :: k in s.properties && k != id && k != id + "a" ==> r.properties[k] == s.properties[k]
  {
  }

  lemma {:induction false} AddItemListed(s: Schema, id: string, d: string, options: seq<int>)
    requires Listed(s)
    ensures Listed(AddItem(s, id, d, options))
  {
    var ordinal := Ordinals(options);
    var s1 :=
      if |ordinal| > 0 then Put(s, id, OrdinalProperty(d, ordinal))
      else if MentionsTime(d) then Put(s, id, IntervalProperty(d))
      else s;
    PutListed(s, id, if |ordinal| > 0 then OrdinalProperty(d, ordinal) else IntervalProperty(d));
    PutListed(s1, id + "a", CodedProperty(d, Coded(options)));
  }

  /** A row never changes a property whose key does not end in 'a': new ids
      are only written when absent, so the first occurrence wins. */
  lemma {:induction false} AddRowKeeps(s: Schema, row: seq<string>, instrument: string, qheader: nat, k: string)
    requires AddRow(s, row, instrument, qheader).Ok?
    requires k in s.properties && !EndsWith(k, "a")
    ensures k in AddRow(s, row, instrument, qheader).value.properties
    ensures AddRow(s, row, instrument, qheader).value.properties[k] == s.properties[k]
  {
    AddRowCases(s, row, instrument, qheader);
    if AddRow(s, row, instrument, qheader).value != s {
      var id := RowId(row[3], qheader);
      assert EndsWith(id + "a", "a");
      AddItemFrame(s, id, RowDescription(row[3]), Options(row[4]).value);
    }
  }

  /** Keys are only appended, and each is listed once. */
  lemma {:induction false} AddRowListed(s: Schema, row: seq<string>, instrument: string, qheader: nat)
    requires AddRow(s, row, instrument, qheader).Ok?
    ensures s.keys <= AddRow(s, row, instrument, qheader).value.keys
    ensures Listed(s) ==> Listed(AddRow(s, row, instrument, qheader).value)
  {
    AddRowCases(s, row, instrument, qheader);
    if AddRow(s, row, instrument, qheader).value != s {
      var id, d, options := RowId(row[3], qheader), RowDescription(row[3]), Options(row[4]).value;
      AddItemFrame(s, id, d, options);
      if Listed(s) {
        AddItemListed(s, id, d, options);
      }
    }
  }

  /** The first occurrence wins over the whole table, and the initial
      `age` and `interview_date` entries are never replaced. */
  lemma {:induction false} BuildKeeps(s: Schema, rows: seq<seq<string>>, instrument: string, qheader: nat, k: string)
    requires Build(s, rows, instrument, qheader).Ok?
    requires k in s.properties && !EndsWith(k, "a")
    ensures k in Build(s, rows, instrument, qheader).value.properties
    ensures Build(s, rows, instrument, qheader).value.properties[k] == s.properties[k]
    decreases |rows|
  {
    if |rows| > 0 {
      AddRowKeeps(s, rows[0], instrument, qheader, k);
      BuildKeeps(AddRow(s, rows[0], instrument, qheader).value, rows[1..], instrument, qheader, k);
    }
  }

  /** The key order stays a listing of the keys without repetition. */
  lemma {:induction false} BuildListed(s: Schema, rows: seq<seq<string>>, instrument: string, qheader: nat)
    requires Listed(s) && Build(s, rows, instrument, qheader).Ok?
    ensures Listed(Build(s, rows, instrument, qheader).value)
    decreases |rows|
  {
    if |rows| > 0 {
      AddRowListed(s, rows[0], instrument, qheader);
      BuildListed(AddRow(s, rows[0], instrument, qheader).value, rows[1..], instrument, qheader);
    }
  }

  /** Lines 19-66: the row loop over the column-name table, then the output
      object. */
  method CreateSchema(rows: seq<seq<string>>, instrument: string, qheader: nat) returns (r: Result<Value>)
    ensures r.Err? <==> Build(INITIAL, rows, instrument, qheader).Err?
    ensures Build(INITIAL, rows, instrument, qheader).Ok? ==> r == Ok(Output(Build(INITIAL, rows, instrument, qheader).value))
  {
    var properties := INITIAL.properties;
    var keys := INITIAL.keys;
    for i := 0 to |rows|
      invariant Build(INITIAL, rows, instrument, qheader) == Build(Schema(properties, keys), rows[i..], instrument, qheader)
    {
      assert rows[i..][1..] == rows[i + 1..];
      var step := AddRow(Schema(properties, keys), rows[i], instrument, qheader);
      if step.Err? {
        return Err(step.message);
      }
      properties := step.value.properties;
      keys := step.value.keys;
    }
    r := Ok(Output(Schema(properties, keys)));
  }

  /** Lines 60-66: the printed `required` names every property exactly
      once, `age` and `interview_date` first. */
  lemma {:induction false} RequiredListsAll(rows: seq<seq<string>>, instrument: string, qheader: nat)
    requires Build(INITIAL, rows, instrument, qheader).Ok?
    ensures var s := Build(INITIAL, rows, instrument, qheader).value;
            Listed(s) && |s.keys| >= 2 && s.keys[0] == "age" && s.keys[1] == "interview_date"
  {
    BuildListed(INITIAL, rows, instrument, qheader);
    BuildPrefix(INITIAL, rows, instrument, qheader);
  }

  /** Keys are only appended. */
  lemma {:induction false} BuildPrefix(s: Schema, rows: seq<seq<string>>, instrument: string, qheader: nat)
    requires Build(s, rows, instrument, qheader).Ok?
    ensures s.keys <= Build(s, rows, instrument, qheader).value.keys
    decreases |rows|
  {
    if |rows| > 0 {
      AddRowListed(s, rows[0], instrument, qheader);
      BuildPrefix(AddRow(s, rows[0], instrument, qheader).value, rows[1..], instrument, qheader);
    }
  }
}
