/** The schema builder for the toddler ADI-R: numbered lines open an item,
    the lines after them are its sub-items, and each line becomes an
    interval property or an ordinal property with a categorical companion. */
module CreateAdirToddlerSchema {
  import opened Wrappers
  import opened Json
  import opened Strings
  import opened SchemaDict
  import AggregatePhenotype

  // ---------------------------------------------------------------------------
  // Numbering (lines 5-16)
  // ---------------------------------------------------------------------------

  /** `previous_q` and `num_since`; `previous_q` is None until the first
      numbered line. */
  datatype Counter = Counter(previous: Option<string>, since: nat)

  /** Lines 5-6. */
  const START: Counter := Counter(None, 2)

  /** The id and the stripped description a line is filed under. */
  datatype Label = Label(id: string, description: string)

  /** A line of the file, read: a numbered line opens an item with its own
      id, any other line continues the item before it. */
  datatype Line = Opening(id: string, description: string) | Continuation(description: string)

  /** Line 8: a '.' among the first ten characters. */
  predicate HasNumber(line: string) {
    '.' in (if |line| <= 10 then line else line[..10])
  }

  lemma {:induction false} HasNumberDot(line: string)
    requires HasNumber(line)
    ensures '.' in line && |SplitOnce(line, '.').0| < 10
  {
    var head := if |line| <= 10 then line else line[..10];
    var i :| 0 <= i < |head| && head[i] == '.';
    assert line[i] == '.';
  }

  /** Lines 9-10: 'Q' and the text before the first '.', zero-filled to
      three places. */
  function NumberedId(line: string): string
    requires HasNumber(line)
  {
    HasNumberDot(line);
    "Q" + ZFill(SplitOnce(line, '.').0, 3)
  }

  /** The number of a numbered line is the text before its first '.', at
      most nine characters; an unsigned number shorter than three
      characters gets the zeros it lacks in front. */
  lemma {:induction false} NumberedIdShape(line: string)
    requires HasNumber(line)
    ensures var q := SplitOnce(line, '.').0;
            '.' !in q && |q| <= 9 &&
            |NumberedId(line)| == 1 + (if |q| >= 3 then |q| else 3) &&
            (|q| >= 3 ==> NumberedId(line) == "Q" + q) &&
            (|q| < 3 && !StartsWith(q, "-") && !StartsWith(q, "+") ==>
               NumberedId(line) == "Q" + seq(3 - |q|, _ => '0') + q)
  {
    HasNumberDot(line);
  }

  /** Lines 8-11 and 16: how a line reads. */
  function Classify(line: string): Line {
    if HasNumber(line) then
      HasNumberDot(line);
      Opening(NumberedId(line), Strip(SplitOnce(line, '.').1))
    else Continuation(Strip(line))
  }

  function ClassifyAll(lines: seq<string>): (ls: seq<Line>)
    ensures |ls| == |lines| && forall i :: 0 <= i < |lines| ==> ls[i] == Classify(lines[i])
  {
    seq(|lines|, i requires 0 <= i < |lines| => Classify(lines[i]))
  }

  /** Lines 12-16 for one line. A continuation before any numbered line
      concatenates None with a string, a TypeError. */
  function Step(c: Counter, l: Line): Result<(Label, Counter)> {
    match l
    case Opening(id, d) => Ok((Label(id, d), Counter(Some(id), 2)))
    case Continuation(d) =>
      match c.previous
      case None => Err("TypeError")
      case Some(p) => Ok((Label(p + "." + NatToString(c.since), d), Counter(Some(p), c.since + 1)))
  }

  /** The labels of all lines, from counter `c`. */
  function Labels(c: Counter, ls: seq<Line>): Result<seq<Label>>
    decreases |ls|
  {
    if |ls| == 0 then Ok([])
    else
      var (l, next) :- Step(c, ls[0]);
      var rest :- Labels(next, ls[1..]);
      Ok([l] + rest)
  }

  /** The counter after the first `i` lines. */
  function CounterAt(c: Counter, ls: seq<Line>, i: nat): Counter
    requires i <= |ls|
    decreases i
  {
    if i == 0 then c
    else match Step(c, ls[0])
      case Ok((_, next)) => CounterAt(next, ls[1..], i - 1)
      case Err(_) => c
  }

  /** One label per line, and from the i-th line on the labels are those of
      the rest of the lines from the counter reached there. */
  lemma {:induction false} LabelsSplit(c: Counter, ls: seq<Line>, i: nat)
    requires Labels(c, ls).Ok? && i <= |ls|
    ensures |Labels(c, ls).value| == |ls|
    ensures Labels(CounterAt(c, ls, i), ls[i..]).Ok?
    ensures Labels(c, ls).value[i..] == Labels(CounterAt(c, ls, i), ls[i..]).value
    decreases i, |ls|
  {
    if |ls| > 0 {
      var next := Step(c, ls[0]).value.1;
      LabelsSplit(next, ls[1..], if i == 0 then 0 else i - 1);
      if i > 0 {
        assert ls[1..][i - 1..] == ls[i..];
      }
    }
  }

  /** Lines 13-16 over a run of continuations after `p`: they are `p.n`,
      `p.(n+1)`, ... */
  lemma {:induction false} SubItems(p: string, n: nat, ls: seq<Line>, j: nat, m: nat)
    requires j < |ls| && forall k :: 0 <= k <= j ==> ls[k].Continuation?
    requires Labels(Counter(Some(p), n), ls).Ok? && m == n + j
    ensures |Labels(Counter(Some(p), n), ls).value| == |ls|
    ensures Labels(Counter(Some(p), n), ls).value[j] == Label(p + "." + NatToString(m), ls[j].description)
    decreases j
  {
    LabelsSplit(Counter(Some(p), n), ls, 0);
    var next := Counter(Some(p), n + 1);
    assert Step(Counter(Some(p), n), ls[0]) == Ok((Label(p + "." + NatToString(n), ls[0].description), next));
    var rest := Labels(next, ls[1..]);
    assert Labels(Counter(Some(p), n), ls) == Prefixed([Label(p + "." + NatToString(n), ls[0].description)], rest);
    if j > 0 {
      SubItems(p, n + 1, ls[1..], j - 1, m);
      assert ls[1..][j - 1] == ls[j];
    }
  }

  /** Lines 8-12: a numbered line is filed under its own id. */
  lemma {:induction false} OpeningLabel(c: Counter, ls: seq<Line>, i: nat)
    requires Labels(c, ls).Ok? && i < |ls| && ls[i].Opening?
    ensures |Labels(c, ls).value| == |ls|
    ensures Labels(c, ls).value[i] == Label(ls[i].id, ls[i].description)
  {
    LabelsSplit(c, ls, i);
    assert Labels(c, ls).value[i] == Labels(c, ls).value[i..][0];
  }

  /** Lines 12-16: the j-th line after a numbered line, with no numbered
      line between, is sub-item `j - i + 1` of it: the counter restarts at
      2 with every numbered line. */
  lemma {:induction false} SubItemLabel(c: Counter, ls: seq<Line>, i: nat, j: nat)
    requires Labels(c, ls).Ok? && i < j < |ls| && ls[i].Opening?
    requires forall k :: i < k <= j ==> ls[k].Continuation?
    ensures |Labels(c, ls).value| == |ls|
    ensures Labels(c, ls).value[j] == Label(ls[i].id + "." + NatToString(j - i + 1), ls[j].description)
  {
    CounterInRun(c, ls, i, j);
    LabelAt(c, ls, j);
    assert ls[j].Continuation?;
    ContinuationLabel(CounterAt(c, ls, j), ls[j], ls[i].id, j - i + 1);
  }

  /** A continuation read under `p` at count `n` is filed as `p.n`. */
  lemma {:induction false} ContinuationLabel(cnt: Counter, l: Line, p: string, n: nat)
    requires cnt == Counter(Some(p), n) && l.Continuation?
    ensures Step(cnt, l) == Ok((Label(p + "." + NatToString(n), l.description), Counter(Some(p), n + 1)))
  {
  }

  /** The counter after one more line is the one `Step` leaves. */
  lemma {:induction false} CounterAtNext(c: Counter, ls: seq<Line>, k: nat)
    requires Labels(c, ls).Ok? && k < |ls|
    ensures Step(CounterAt(c, ls, k), ls[k]).Ok?
    ensures CounterAt(c, ls, k + 1) == Step(CounterAt(c, ls, k), ls[k]).value.1
    decreases k
  {
    if k > 0 {
      var next := Step(c, ls[0]).value.1;
      CounterAtNext(next, ls[1..], k - 1);
      assert ls[1..][k - 1] == ls[k];
    }
  }

  /** Label `k` is the one `Step` gives line `k` from the counter reached
      there. */
  lemma {:induction false} LabelAt(c: Counter, ls: seq<Line>, k: nat)
    requires Labels(c, ls).Ok? && k < |ls|
    ensures |Labels(c, ls).value| == |ls|
    ensures Step(CounterAt(c, ls, k), ls[k]).Ok?
    ensures Labels(c, ls).value[k] == Step(CounterAt(c, ls, k), ls[k]).value.0
  {
    LabelsSplit(c, ls, k);
    var tail := ls[k..];
    assert tail[0] == ls[k];
    assert Labels(c, ls).value[k] == Labels(c, ls).value[k..][0];
  }

  /** Inside a run of continuations after the numbered line `i`, the
      counter before line `k` stands at `k - i + 1` under its id. */
  lemma {:induction false} CounterInRun(c: Counter, ls: seq<Line>, i: nat, k: nat)
    requires Labels(c, ls).Ok? && i < k < |ls| && ls[i].Opening?
    requires forall m :: i < m < k ==> ls[m].Continuation?
    ensures CounterAt(c, ls, k) == Counter(Some(ls[i].id), k - i + 1)
    decreases k
  {
    if k == i + 1 {
      CounterAtNext(c, ls, i);
    } else {
      CounterInRun(c, ls, i, k - 1);
      CounterAtNext(c, ls, k - 1);
    }
  }

  /** After a numbered line the labels are those of the lines after it,
      counted from 2 under its id. */
  lemma {:induction false} AfterOpening(c: Counter, ls: seq<Line>, i: nat)
    requires Labels(c, ls).Ok? && i < |ls| && ls[i].Opening?
    ensures |Labels(c, ls).value| == |ls|
    ensures Labels(Counter(Some(ls[i].id), 2), ls[i + 1..]).Ok?
    ensures Labels(c, ls).value[i + 1..] == Labels(Counter(Some(ls[i].id), 2), ls[i + 1..]).value
  {
    LabelsSplit(c, ls, i);
    var tail := ls[i..];
    assert tail[0] == ls[i] && tail[1..] == ls[i + 1..];
    var here := Labels(CounterAt(c, ls, i), tail);
    var after := Counter(Some(ls[i].id), 2);
    assert here == Prefixed([Label(ls[i].id, ls[i].description)], Labels(after, ls[i + 1..]));
    assert Labels(c, ls).value[i + 1..] == Labels(c, ls).value[i..][1..];
  }

  /** Once a numbered line has been read, every line can be labelled. */
  lemma {:induction false} LabelsAfterOpening(p: string, n: nat, ls: seq<Line>)
    ensures Labels(Counter(Some(p), n), ls).Ok?
    decreases |ls|
  {
    if |ls| > 0 {
      match ls[0]
      case Opening(id, _) => LabelsAfterOpening(id, 2, ls[1..]);
      case Continuation(_) => LabelsAfterOpening(p, n + 1, ls[1..]);
    }
  }

  /** Lines 5 and 14: the file fails exactly when its first line is not
      numbered. */
  lemma {:induction false} LabelsFail(ls: seq<Line>)
    ensures Labels(START, ls).Err? <==> |ls| > 0 && ls[0].Continuation?
  {
    if |ls| > 0 && ls[0].Opening? {
      LabelsAfterOpening(ls[0].id, 2, ls[1..]);
    }
  }

  /** `labels` followed by a result of further labels. */
  function Prefixed(labels: seq<Label>, r: Result<seq<Label>>): Result<seq<Label>> {
    match r
    case Ok(rest) => Ok(labels + rest)
    case Err(e) => Err(e)
  }

  // ---------------------------------------------------------------------------
  // Properties (lines 18-36)
  // ---------------------------------------------------------------------------

  /** Line 18. */
  predicate IsInterval(d: string) {
    Contains(d, "AGE ") || Contains(d, "Age ") || Contains(d, "Onset ") ||
    Contains(d, "number") || Contains(d, "length")
  }

  /** Lines 19-24. */
  function IntervalProperty(d: string): Value {
    Obj(map[
      "data-type" := Str("interval"),
      "description" := Str(d),
      "maximum" := Int(899),
      "type" := Arr([Str("integer"), Str("null")])])
  }

  /** Lines 26-30. */
  function OrdinalProperty(d: string): Value {
    Obj(map[
      "data-type" := Str("ordinal"),
      "description" := Str(d),
      "enum" := Arr([Null, Int(0), Int(1), Int(2), Int(3)])])
  }

  /** Lines 32-36. */
  function CodedProperty(d: string): Value {
    Obj(map[
      "data-type" := Str("categorical"),
      "description" := Str("Coded: " + d),
      "enum" := Arr([Null, Int(0), Int(8), Int(9)])])
  }

  /** The recoder reads the coded set {8, 9} off the companion property. */
  lemma {:induction false} CodedPropertyCodes(d: string)
    ensures AggregatePhenotype.EnumOf(CodedProperty(d)).Ok?
    ensures AggregatePhenotype.CodedSet(AggregatePhenotype.EnumOf(CodedProperty(d)).value) == Ok({Int(8), Int(9)})
  {
    var coded := [Int(8), Int(9)];
    var e := AggregatePhenotype.EnumOf(CodedProperty(d)).value;
    assert e == [Null, Int(0)] + coded;
    CodedSet89();
  }

  lemma {:induction false} CodedSet89()
    ensures AggregatePhenotype.CodedSet([Null, Int(0)] + [Int(8), Int(9)]) == Ok({Int(8), Int(9)})
  {
    AggregatePhenotype.CodedSetOfSchemaEnum([Int(8), Int(9)]);
    Codes89([Int(8), Int(9)]);
  }

  lemma {:induction false} Codes89(coded: seq<Value>)
    requires coded == [Int(8), Int(9)]
    ensures (set v | v in coded) == {Int(8), Int(9)}
  {
  }

  /** Lines 18-36 for one label. */
  function AddLabel(s: Schema, l: Label): Schema {
    if IsInterval(l.description) then Put(s, l.id, IntervalProperty(l.description))
    else Put(Put(s, l.id, OrdinalProperty(l.description)), l.id + "a", CodedProperty(l.description))
  }

  /** The keys a label writes. */
  function Written(l: Label): set<string> {
    if IsInterval(l.description) then {l.id} else {l.id, l.id + "a"}
  }

  /** The schema after the labels. */
  function Fill(s: Schema, labels: seq<Label>): Schema
    decreases |labels|
  {
    if |labels| == 0 then s
    else Fill(AddLabel(s, labels[0]), labels[1..])
  }

  lemma {:induction false} FillAppend(s: Schema, labels: seq<Label>, l: Label)
    ensures Fill(s, labels + [l]) == AddLabel(Fill(s, labels), l)
    decreases |labels|
  {
    if |labels| > 0 {
      assert (labels + [l])[1..] == labels[1..] + [l];
      FillAppend(AddLabel(s, labels[0]), labels[1..], l);
    }
  }

  /** A label writes its keys and leaves every other key alone. */
  lemma {:induction false} AddLabelFrame(s: Schema, l: Label)
    ensures AddLabel(s, l).properties.Keys == s.properties.Keys + Written(l)
    ensures forall k :: k in s.properties && k !in Written(l) ==> AddLabel(s, l).properties[k] == s.properties[k]
    ensures Listed(s) ==> Listed(AddLabel(s, l))
  {
    AddLabelKeys(s, l);
    AddLabelKeeps(s, l);
    if Listed(s) {
      AddLabelListed(s, l);
    }
  }

  lemma {:induction false} AddLabelKeys(s: Schema, l: Label)
    ensures AddLabel(s, l).properties.Keys == s.properties.Keys + Written(l)
  {
  }

  lemma {:induction false} AddLabelKeeps(s: Schema, l: Label)
    ensures forall k :: k in s.properties && k !in Written(l) ==> AddLabel(s, l).properties[k] == s.properties[k]
  {
  }

  lemma {:induction false} AddLabelListed(s: Schema, l: Label)
    requires Listed(s)
    ensures Listed(AddLabel(s, l))
  {
    if IsInterval(l.description) {
      PutListed(s, l.id, IntervalProperty(l.description));
    } else {
      var t := Put(s, l.id, OrdinalProperty(l.description));
      PutListed(s, l.id, OrdinalProperty(l.description));
      PutListed(t, l.id + "a", CodedProperty(l.description));
    }
  }

  /** The property a label leaves under a key it writes. */
  function Property(l: Label, k: string): Value {
    if k == l.id then (if IsInterval(l.description) then IntervalProperty(l.description) else OrdinalProperty(l.description))
    else CodedProperty(l.description)
  }

  lemma {:induction false} AddLabelWrites(s: Schema, l: Label, k: string)
    requires k in Written(l)
    ensures AddLabel(s, l).properties[k] == Property(l, k)
  {
    assert l.id != l.id + "a";
  }

  /** The keys of the schema are those of the start and those the labels
      write; every key the labels leave alone keeps its value; the order
      stays a listing. */
  lemma {:induction false} FillFrame(s: Schema, labels: seq<Label>, k: string)
    ensures k in Fill(s, labels).properties <==> k in s.properties || exists i :: 0 <= i < |labels| && k in Written(labels[i])
    ensures k in s.properties && (forall i :: 0 <= i < |labels| ==> k !in Written(labels[i])) ==>
              Fill(s, labels).properties[k] == s.properties[k]
    ensures Listed(s) ==> Listed(Fill(s, labels))
    decreases |labels|
  {
    if |labels| > 0 {
      var next := AddLabel(s, labels[0]);
      AddLabelFrame(s, labels[0]);
      FillFrame(next, labels[1..], k);
      if exists i :: 1 <= i < |labels| && k in Written(labels[i]) {
        var i :| 1 <= i < |labels| && k in Written(labels[i]);
        assert labels[1..][i - 1] == labels[i];
      }
      if exists i :: 0 <= i < |labels[1..]| && k in Written(labels[1..][i]) {
        var i :| 0 <= i < |labels[1..]| && k in Written(labels[1..][i]);
        assert labels[1..][i] == labels[i + 1];
      }
    }
  }

  /** Line 19 and 26-32: a later line with the same key overwrites an
      earlier one, so a key holds what its last writer put there. */
  lemma {:induction false} FillLast(s: Schema, labels: seq<Label>, j: nat, k: string)
    requires j < |labels| && k in Written(labels[j])
    requires forall i :: j < i < |labels| ==> k !in Written(labels[i])
    ensures k in Fill(s, labels).properties && Fill(s, labels).properties[k] == Property(labels[j], k)
    decreases |labels|
  {
    var next := AddLabel(s, labels[0]);
    if j == 0 {
      AddLabelWrites(s, labels[0], k);
      AddLabelFrame(s, labels[0]);
      forall i | 0 <= i < |labels[1..]| ensures k !in Written(labels[1..][i]) {
        assert labels[1..][i] == labels[i + 1];
      }
      FillFrame(next, labels[1..], k);
    } else {
      forall i | j - 1 < i < |labels[1..]| ensures k !in Written(labels[1..][i]) {
        assert labels[1..][i] == labels[i + 1];
      }
      FillLast(next, labels[1..], j - 1, k);
    }
  }

  // ---------------------------------------------------------------------------
  // The script (lines 3-44)
  // ---------------------------------------------------------------------------

  /** The printed schema of the lines. */
  function ToddlerSchema(lines: seq<string>): Result<Value> {
    var labels :- Labels(START, ClassifyAll(lines));
    Ok(Output(Fill(EMPTY, labels)))
  }

  /** Lines 8-16 for one line, on the loop's variables. */
  method NextLabel(previous: Option<string>, since: nat, line: string)
    returns (r: Result<(Label, Counter)>)
    ensures r == Step(Counter(previous, since), Classify(line))
  {
    if HasNumber(line) {
      var question, description := ReadNumbered(line);
      return Ok((Label(question, description), Counter(Some(question), 2)));
    }
    if previous.None? {
      return Err("TypeError");
    }
    var question := previous.value + "." + NatToString(since);
    return Ok((Label(question, Strip(line)), Counter(previous, since + 1)));
  }

  /** Lines 9-11: the id and the stripped description of a numbered line. */
  method ReadNumbered(line: string) returns (question: string, description: string)
    requires HasNumber(line)
    ensures Classify(line) == Opening(question, description)
  {
    HasNumberDot(line);
    var (number, rest) := SplitOnce(line, '.');
    question := "Q" + ZFill(number, 3);
    description := Strip(rest);
  }

  lemma {:induction false} PrefixedEmpty(r: Result<seq<Label>>)
    ensures Prefixed([], r) == r
  {
    if r.Ok? {
      assert [] + r.value == r.value;
    }
  }

  /** The labels from line i on are the label of line i and those after
      it, or an error when line i has none. */
  lemma {:induction false} LabelsStep(done: seq<Label>, c: Counter, ls: seq<Line>, i: nat)
    requires i < |ls|
    ensures Step(c, ls[i]).Err? ==> Prefixed(done, Labels(c, ls[i..])) == Err("TypeError")
    ensures Step(c, ls[i]).Ok? ==>
              Prefixed(done, Labels(c, ls[i..])) ==
              Prefixed(done + [Step(c, ls[i]).value.0], Labels(Step(c, ls[i]).value.1, ls[i + 1..]))
  {
    assert ls[i..][0] == ls[i];
    assert ls[i..][1..] == ls[i + 1..];
    if Step(c, ls[i]).Ok? {
      var rest := Labels(Step(c, ls[i]).value.1, ls[i + 1..]);
      if rest.Ok? {
        assert done + ([Step(c, ls[i]).value.0] + rest.value) == done + [Step(c, ls[i]).value.0] + rest.value;
      }
    }
  }

  /** Lines 18-36 on the `schema` dict. */
  method FileLabel(schema: Schema, item: Label) returns (next: Schema)
    ensures next == AddLabel(schema, item)
  {
    next := schema;
    if IsInterval(item.description) {
      next := Put(next, item.id, IntervalProperty(item.description));
    } else {
      next := Put(next, item.id, OrdinalProperty(item.description));
      next := Put(next, item.id + "a", CodedProperty(item.description));
    }
  }

  /** Lines 3-44: the loop over the lines of the file, then the output
      object. */
  method CreateToddlerSchema(lines: seq<string>) returns (r: Result<Value>)
    ensures r == ToddlerSchema(lines)
  {
    var previous: Option<string> := None;
    var since: nat := 2;
    var schema := EMPTY;
    ghost var ls := ClassifyAll(lines);
    ghost var done: seq<Label> := [];
    assert ls[0..] == ls;
    PrefixedEmpty(Labels(START, ls));
    for i := 0 to |lines|
      invariant Labels(START, ls) == Prefixed(done, Labels(Counter(previous, since), ls[i..]))
      invariant schema == Fill(EMPTY, done)
    {
      var step := NextLabel(previous, since, lines[i]);
      if step.Err? {
        LabelsStep(done, Counter(previous, since), ls, i);
        assert Labels(START, ls) == Err("TypeError");
        return Err("TypeError");
      }
      var item, p, n := step.value.0, step.value.1.previous, step.value.1.since;
      LabelsStep(done, Counter(previous, since), ls, i);
      schema := FileLabel(schema, item);
      FillAppend(EMPTY, done, item);
      done := done + [item];
      previous, since := p, n;
    }
    assert ls[|lines|..] == [];
    assert done + [] == done;
    assert Labels(START, ls) == Ok(done);
    r := Ok(Output(schema));
  }

  /** Lines 38-44: every property is required, once. */
  lemma {:induction false} RequiredListsAll(lines: seq<string>)
    requires ToddlerSchema(lines).Ok?
    ensures Listed(Fill(EMPTY, Labels(START, ClassifyAll(lines)).value))
  {
    FillFrame(EMPTY, Labels(START, ClassifyAll(lines)).value, "");
  }
}
