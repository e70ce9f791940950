/** The ADOS aggregation: each sample's first ADOS module block is rewritten
    into one common "ADOS" block, item by item, through a per-module table of
    corresponding item ids. */
module AggregateAdos {
  import opened Wrappers
  import opened Json

  /** An item id "Q<section><nn>[.<part>]" written as one number: the section
      letter (A = 1, ..., E = 5) times 1000, plus the item number times 10,
      plus the sub-item (0 when there is none). "QB13.1" is 2131. */
  predicate ValidCode(c: int) {
    1000 <= c < 6000
  }

  function Section(c: int): nat
    requires ValidCode(c)
  {
    c / 1000
  }

  function Number(c: int): nat
    requires ValidCode(c)
  {
    (c / 10) % 100
  }

  function Part(c: int): nat
    requires ValidCode(c)
  {
    c % 10
  }

  function DigitChar(d: nat): char
    requires d < 10
  {
    ('0' as int + d) as char
  }

  /** The id as the schema spells it: 'Q', the section letter, the item
      number on two digits, then '.' and the sub-item when there is one. */
  function ItemName(c: int): string
    requires ValidCode(c)
  {
    var n := Number(c);
    ['Q', ('A' as int + Section(c) - 1) as char, DigitChar(n / 10), DigitChar(n % 10)]
    + (if Part(c) == 0 then [] else ['.', DigitChar(Part(c))])
  }

  lemma {:induction false} Decompose(c: int)
    requires ValidCode(c)
    ensures c == 1000 * Section(c) + 100 * (Number(c) / 10) + 10 * (Number(c) % 10) + Part(c)
  {
  }

  /** Different codes have different names, so the rendered tables below are
      as injective as the coded ones. */
  lemma {:induction false} ItemNameInjective(a: int, b: int)
    requires ValidCode(a) && ValidCode(b) && ItemName(a) == ItemName(b)
    ensures a == b
  {
    var na, nb := ItemName(a), ItemName(b);
    assert |na| == |nb|;
    assert na[1] == nb[1] && na[2] == nb[2] && na[3] == nb[3];
    assert Section(a) == Section(b);
    assert Number(a) / 10 == Number(b) / 10;
    assert Number(a) % 10 == Number(b) % 10;
    if Part(a) != 0 {
      assert na[5] == nb[5];
    }
    assert Part(a) == Part(b);
    Decompose(a);
    Decompose(b);
  }

  lemma {:induction false} ItemNamesInjective()
    ensures forall a, b :: ValidCode(a) && ValidCode(b) && ItemName(a) == ItemName(b) ==> a == b
  {
    forall a, b | ValidCode(a) && ValidCode(b) && ItemName(a) == ItemName(b) ensures a == b {
      ItemNameInjective(a, b);
    }
  }

  /** Every name starts with 'Q', so no item is called "module". */
  lemma {:induction false} ItemNameIsQuestion(c: int)
    requires ValidCode(c)
    ensures |ItemName(c)| >= 4 && ItemName(c)[0] == 'Q'
    ensures ItemName(c) != "module"
  {
    assert ItemName(c)[0] != "module"[0];
  }

  /** `feature_mapping['ADOS_Module1']`, item by item. */
  const MODULE1: map<int, int> := map[
      1010 := 1010, 1020 := 1110, 1030 := 1020, 1040 := 1030, 1050 := 1040, 1060 := 1120,
      1070 := 1070, 1080 := 1100, 2010 := 2010, 2020 := 2170, 2030 := 2020, 2040 := 2160,
      2050 := 2040, 2060 := 2070, 2070 := 2190, 2080 := 2210, 2090 := 2080, 2100 := 2100,
      2110 := 2090, 2120 := 2130, 2131 := 2110, 2132 := 2230, 2140 := 2140, 2150 := 2220,
      2160 := 2150, 3010 := 3010, 3020 := 3020, 4010 := 4010, 4020 := 4020, 4030 := 4030,
      4040 := 4040, 5010 := 5010, 5020 := 5020, 5030 := 5030]

  /** The inverse of MODULE1, a proof device: it exists because the table is injective. */
  const INVERSE1: map<int, int> := map[
      1010 := 1010, 1020 := 1030, 1030 := 1040, 1040 := 1050, 1070 := 1070, 1100 := 1080,
      1110 := 1020, 1120 := 1060, 2010 := 2010, 2020 := 2030, 2040 := 2050, 2070 := 2060,
      2080 := 2090, 2090 := 2110, 2100 := 2100, 2110 := 2131, 2130 := 2120, 2140 := 2140,
      2150 := 2160, 2160 := 2040, 2170 := 2020, 2190 := 2070, 2210 := 2080, 2220 := 2150,
      2230 := 2132, 3010 := 3010, 3020 := 3020, 4010 := 4010, 4020 := 4020, 4030 := 4030,
      4040 := 4040, 5010 := 5010, 5020 := 5020, 5030 := 5030]

  /** `feature_mapping['ADOS_Module2']`, item by item. */
  const MODULE2: map<int, int> := map[
      1010 := 1010, 1020 := 1020, 1030 := 1030, 1040 := 1040, 1050 := 1090, 1060 := 1070,
      1070 := 1100, 2010 := 2010, 2020 := 2020, 2030 := 2040, 2040 := 2070, 2050 := 2080,
      2060 := 2100, 2070 := 2090, 2080 := 2130, 2091 := 2110, 2092 := 2230, 2100 := 2140,
      2110 := 2120, 2120 := 2150, 3010 := 3010, 3020 := 3020, 4010 := 4010, 4020 := 4020,
      4030 := 4030, 4040 := 4040, 5010 := 5010, 5020 := 5020, 5030 := 5030]

  /** The inverse of MODULE2, a proof device: it exists because the table is injective. */
  const INVERSE2: map<int, int> := map[
      1010 := 1010, 1020 := 1020, 1030 := 1030, 1040 := 1040, 1070 := 1060, 1090 := 1050,
      1100 := 1070, 2010 := 2010, 2020 := 2020, 2040 := 2030, 2070 := 2040, 2080 := 2050,
      2090 := 2070, 2100 := 2060, 2110 := 2091, 2120 := 2110, 2130 := 2080, 2140 := 2100,
      2150 := 2120, 2230 := 2092, 3010 := 3010, 3020 := 3020, 4010 := 4010, 4020 := 4020,
      4030 := 4030, 4040 := 4040, 5010 := 5010, 5020 := 5020, 5030 := 5030]

  /** `feature_mapping['ADOS_Module3']`, item by item. */
  const MODULE3: map<int, int> := map[
      1010 := 1010, 1020 := 1020, 1030 := 1030, 1040 := 1040, 1050 := 1050, 1060 := 1060,
      1070 := 1080, 1080 := 1090, 1090 := 1100, 2010 := 2010, 2020 := 2020, 2030 := 2030,
      2040 := 2040, 2050 := 2050, 2060 := 2060, 2070 := 2130, 2080 := 2110, 2090 := 2140,
      2100 := 2120, 2110 := 2150, 3010 := 3020, 4010 := 4010, 4020 := 4020, 4030 := 4030,
      4040 := 4040, 4050 := 4050, 5010 := 5010, 5020 := 5020, 5030 := 5030]

  /** The inverse of MODULE3, a proof device: it exists because the table is injective. */
  const INVERSE3: map<int, int> := map[
      1010 := 1010, 1020 := 1020, 1030 := 1030, 1040 := 1040, 1050 := 1050, 1060 := 1060,
      1080 := 1070, 1090 := 1080, 1100 := 1090, 2010 := 2010, 2020 := 2020, 2030 := 2030,
      2040 := 2040, 2050 := 2050, 2060 := 2060, 2110 := 2080, 2120 := 2100, 2130 := 2070,
      2140 := 2090, 2150 := 2110, 3020 := 3010, 4010 := 4010, 4020 := 4020, 4030 := 4030,
      4040 := 4040, 4050 := 4050, 5010 := 5010, 5020 := 5020, 5030 := 5030]

  /** `feature_mapping['ADOS_Module4']`, item by item. */
  const MODULE4: map<int, int> := map[
      1010 := 1010, 1020 := 1020, 1030 := 1030, 1040 := 1040, 1050 := 1050, 1060 := 1060,
      1070 := 1080, 1080 := 1090, 1090 := 1100, 1100 := 1130, 2010 := 2010, 2020 := 2020,
      2030 := 2030, 2040 := 2040, 2050 := 2180, 2060 := 2050, 2070 := 2060, 2080 := 2200,
      2090 := 2130, 2100 := 2110, 2110 := 2140, 2120 := 2120, 2130 := 2150, 3010 := 3020,
      4010 := 4010, 4020 := 4020, 4030 := 4030, 4040 := 4040, 4050 := 4050, 5010 := 5010,
      5020 := 5020, 5030 := 5030]

  /** The inverse of MODULE4, a proof device: it exists because the table is injective. */
  const INVERSE4: map<int, int> := map[
      1010 := 1010, 1020 := 1020, 1030 := 1030, 1040 := 1040, 1050 := 1050, 1060 := 1060,
      1080 := 1070, 1090 := 1080, 1100 := 1090, 1130 := 1100, 2010 := 2010, 2020 := 2020,
      2030 := 2030, 2040 := 2040, 2050 := 2060, 2060 := 2070, 2110 := 2100, 2120 := 2120,
      2130 := 2090, 2140 := 2110, 2150 := 2130, 2180 := 2050, 2200 := 2080, 3020 := 3010,
      4010 := 4010, 4020 := 4020, 4030 := 4030, 4040 := 4040, 4050 := 4050, 5010 := 5010,
      5020 := 5020, 5030 := 5030]

  /** Every key of the table is an item code. */
  predicate Coded(table: map<int, int>) {
    forall a :: a in table ==> ValidCode(a)
  }

  /** `inverse` maps every value of `table` back to its key. */
  predicate Forward(table: map<int, int>, inverse: map<int, int>) {
    forall a :: a in table ==> table[a] in inverse && inverse[table[a]] == a
  }

  /** `table` maps every key of `inverse` back to its value. */
  predicate Backward(table: map<int, int>, inverse: map<int, int>) {
    forall t :: t in inverse ==> inverse[t] in table && table[inverse[t]] == t
  }

  /** A table of item codes with its inverse: it is injective. */
  predicate Invertible(table: map<int, int>, inverse: map<int, int>) {
    Coded(table) && Coded(inverse) && Forward(table, inverse) && Backward(table, inverse)
  }

  lemma {:induction false} Module1CodedAt(a: int)
    requires a in MODULE1
    ensures ValidCode(a)
  {
  }

  lemma {:induction false} Inverse1CodedAt(t: int)
    requires t in INVERSE1
    ensures ValidCode(t)
  {
  }
  lemma {:induction false} Module1ForwardAt(a: int)
    requires a in MODULE1
    ensures MODULE1[a] in INVERSE1 && INVERSE1[MODULE1[a]] == a
  {
  }

  lemma {:induction false} Module1BackwardAt(t: int)
    requires t in INVERSE1
    ensures INVERSE1[t] in MODULE1 && MODULE1[INVERSE1[t]] == t
  {
  }

  lemma {:induction false} Module1Invertible()
    ensures Invertible(MODULE1, INVERSE1)
  {
    forall a | a in MODULE1 ensures ValidCode(a) {
      Module1CodedAt(a);
    }
    forall t | t in INVERSE1 ensures ValidCode(t) {
      Inverse1CodedAt(t);
    }
    forall a | a in MODULE1 ensures MODULE1[a] in INVERSE1 && INVERSE1[MODULE1[a]] == a {
      Module1ForwardAt(a);
    }
    forall t | t in INVERSE1 ensures INVERSE1[t] in MODULE1 && MODULE1[INVERSE1[t]] == t {
      Module1BackwardAt(t);
    }
  }

  lemma {:induction false} Module2CodedAt(a: int)
    requires a in MODULE2
    ensures ValidCode(a)
  {
  }

  lemma {:induction false} Inverse2CodedAt(t: int)
    requires t in INVERSE2
    ensures ValidCode(t)
  {
  }
  lemma {:induction false} Module2ForwardAt(a: int)
    requires a in MODULE2
    ensures MODULE2[a] in INVERSE2 && INVERSE2[MODULE2[a]] == a
  {
  }

  lemma {:induction false} Module2BackwardAt(t: int)
    requires t in INVERSE2
    ensures INVERSE2[t] in MODULE2 && MODULE2[INVERSE2[t]] == t
  {
  }

  lemma {:induction false} Module2Invertible()
    ensures Invertible(MODULE2, INVERSE2)
  {
    forall a | a in MODULE2 ensures ValidCode(a) {
      Module2CodedAt(a);
    }
    forall t | t in INVERSE2 ensures ValidCode(t) {
      Inverse2CodedAt(t);
    }
    forall a | a in MODULE2 ensures MODULE2[a] in INVERSE2 && INVERSE2[MODULE2[a]] == a {
      Module2ForwardAt(a);
    }
    forall t | t in INVERSE2 ensures INVERSE2[t] in MODULE2 && MODULE2[INVERSE2[t]] == t {
      Module2BackwardAt(t);
    }
  }

  lemma {:induction false} Module3CodedAt(a: int)
    requires a in MODULE3
    ensures ValidCode(a)
  {
  }

  lemma {:induction false} Inverse3CodedAt(t: int)
    requires t in INVERSE3
    ensures ValidCode(t)
  {
  }
  lemma {:induction false} Module3ForwardAt(a: int)
    requires a in MODULE3
    ensures MODULE3[a] in INVERSE3 && INVERSE3[MODULE3[a]] == a
  {
  }

  lemma {:induction false} Module3BackwardAt(t: int)
    requires t in INVERSE3
    ensures INVERSE3[t] in MODULE3 && MODULE3[INVERSE3[t]] == t
  {
  }

  lemma {:induction false} Module3Invertible()
    ensures Invertible(MODULE3, INVERSE3)
  {
    forall a | a in MODULE3 ensures ValidCode(a) {
      Module3CodedAt(a);
    }
    forall t | t in INVERSE3 ensures ValidCode(t) {
      Inverse3CodedAt(t);
    }
    forall a | a in MODULE3 ensures MODULE3[a] in INVERSE3 && INVERSE3[MODULE3[a]] == a {
      Module3ForwardAt(a);
    }
    forall t | t in INVERSE3 ensures INVERSE3[t] in MODULE3 && MODULE3[INVERSE3[t]] == t {
      Module3BackwardAt(t);
    }
  }

  lemma {:induction false} Module4CodedAt(a: int)
    requires a in MODULE4
    ensures ValidCode(a)
  {
  }

  lemma {:induction false} Inverse4CodedAt(t: int)
    requires t in INVERSE4
    ensures ValidCode(t)
  {
  }
  lemma {:induction false} Module4ForwardAt(a: int)
    requires a in MODULE4
    ensures MODULE4[a] in INVERSE4 && INVERSE4[MODULE4[a]] == a
  {
  }

  lemma {:induction false} Module4BackwardAt(t: int)
    requires t in INVERSE4
    ensures INVERSE4[t] in MODULE4 && MODULE4[INVERSE4[t]] == t
  {
  }

  lemma {:induction false} Module4Invertible()
    ensures Invertible(MODULE4, INVERSE4)
  {
    forall a | a in MODULE4 ensures ValidCode(a) {
      Module4CodedAt(a);
    }
    forall t | t in INVERSE4 ensures ValidCode(t) {
      Inverse4CodedAt(t);
    }
    forall a | a in MODULE4 ensures MODULE4[a] in INVERSE4 && INVERSE4[MODULE4[a]] == a {
      Module4ForwardAt(a);
    }
    forall t | t in INVERSE4 ensures INVERSE4[t] in MODULE4 && MODULE4[INVERSE4[t]] == t {
      Module4BackwardAt(t);
    }
  }

  /** Line 73: the modules in the order they are tried. */
  const ADOS_INSTRUMENTS: seq<string> := ["ADOS_Module1", "ADOS_Module2", "ADOS_Module3", "ADOS_Module4"]

  /** The coded `feature_mapping` entry of the i-th module. */
  function CodeTable(i: nat): map<int, int>
    requires i < 4
  {
    if i == 0 then MODULE1 else if i == 1 then MODULE2 else if i == 2 then MODULE3 else MODULE4
  }

  function InverseTable(i: nat): map<int, int>
    requires i < 4
  {
    if i == 0 then INVERSE1 else if i == 1 then INVERSE2 else if i == 2 then INVERSE3 else INVERSE4
  }

  /** Each of the four tables is injective. */
  lemma {:induction false} TablesInvertible(i: nat)
    requires i < 4
    ensures Invertible(CodeTable(i), InverseTable(i))
  {
    if i == 0 {
      Module1Invertible();
    } else if i == 1 {
      Module2Invertible();
    } else if i == 2 {
      Module3Invertible();
    } else {
      Module4Invertible();
    }
  }

  /** Keys and values of the table are item codes. */
  predicate Renderable(table: map<int, int>) {
    forall a :: a in table ==> ValidCode(a) && ValidCode(table[a])
  }

  lemma {:induction false} InvertibleRenderable(table: map<int, int>, inverse: map<int, int>)
    requires Invertible(table, inverse)
    ensures Renderable(table) && Renderable(inverse)
  {
  }

  /** The table spelled with item names. */
  function Render(table: map<int, int>): map<string, string>
    requires Renderable(table)
  {
    ItemNamesInjective();
    map a | a in table :: ItemName(a) := ItemName(table[a])
  }

  /** Lines 28-71: `feature_mapping[ADOS_INSTRUMENTS[i]]`. */
  function FeatureMapping(i: nat): map<string, string>
    requires i < 4
  {
    TablesInvertible(i);
    InvertibleRenderable(CodeTable(i), InverseTable(i));
    Render(CodeTable(i))
  }

  /** The inverse of `FeatureMapping(i)`, a proof device. */
  function InverseMapping(i: nat): map<string, string>
    requires i < 4
  {
    TablesInvertible(i);
    InvertibleRenderable(CodeTable(i), InverseTable(i));
    Render(InverseTable(i))
  }

  /** `inv` undoes `f` and `f` undoes `inv`. */
  predicate Inverse(f: map<string, string>, inv: map<string, string>) {
    (forall k :: k in f ==> f[k] in inv && inv[f[k]] == k) &&
    (forall t :: t in inv ==> inv[t] in f && f[inv[t]] == t)
  }

  /** A code's entry appears under the code's name. */
  lemma {:induction false} RenderAt(table: map<int, int>, a: int)
    requires Renderable(table) && a in table
    ensures ItemName(a) in Render(table) && Render(table)[ItemName(a)] == ItemName(table[a])
  {
    ItemNamesInjective();
  }

  /** Every rendered key names a code of the table. */
  lemma {:induction false} RenderedKey(table: map<int, int>, k: string) returns (a: int)
    requires Renderable(table) && k in Render(table)
    ensures a in table && ItemName(a) == k
  {
    a :| a in table && ItemName(a) == k;
  }

  lemma {:induction false} RenderForward(table: map<int, int>, inverse: map<int, int>, k: string)
    requires Invertible(table, inverse) && Renderable(table) && Renderable(inverse)
    requires k in Render(table)
    ensures Render(table)[k] in Render(inverse) && Render(inverse)[Render(table)[k]] == k
  {
    var a := RenderedKey(table, k);
    RenderAt(table, a);
    RenderAt(inverse, table[a]);
  }

  lemma {:induction false} RenderBackward(table: map<int, int>, inverse: map<int, int>, t: string)
    requires Invertible(table, inverse) && Renderable(table) && Renderable(inverse)
    requires t in Render(inverse)
    ensures Render(inverse)[t] in Render(table) && Render(table)[Render(inverse)[t]] == t
  {
    var c := RenderedKey(inverse, t);
    RenderAt(inverse, c);
    RenderAt(table, inverse[c]);
  }

  /** Rendering keeps a table and its inverse inverse to each other. */
  lemma {:induction false} RenderInverse(table: map<int, int>, inverse: map<int, int>)
    requires Invertible(table, inverse)
    ensures Inverse(Render(table), Render(inverse))
  {
    InvertibleRenderable(table, inverse);
    forall k | k in Render(table)
      ensures Render(table)[k] in Render(inverse) && Render(inverse)[Render(table)[k]] == k
    {
      RenderForward(table, inverse, k);
    }
    forall t | t in Render(inverse)
      ensures Render(inverse)[t] in Render(table) && Render(table)[Render(inverse)[t]] == t
    {
      RenderBackward(table, inverse, t);
    }
  }

  /** Every rendered key is an item name, never "module". */
  lemma {:induction false} RenderedNames(table: map<int, int>, t: string)
    requires Renderable(table) && t in Render(table)
    ensures |t| >= 4 && t[0] == 'Q' && t != "module"
  {
    var a :| a in table && ItemName(a) == t;
    ItemNameIsQuestion(a);
  }

  lemma {:induction false} FeatureMappingInverse(i: nat)
    requires i < 4
    ensures Inverse(FeatureMapping(i), InverseMapping(i))
  {
    TablesInvertible(i);
    RenderInverse(CodeTable(i), InverseTable(i));
  }

  /** Lines 28-71: no two items of a module are written to the same ADOS
      item. */
  lemma {:induction false} FeatureMappingInjective(i: nat, a: string, b: string)
    requires i < 4 && a in FeatureMapping(i) && b in FeatureMapping(i)
    requires FeatureMapping(i)[a] == FeatureMapping(i)[b]
    ensures a == b
  {
    FeatureMappingInverse(i);
  }

  /** Every mapped name is an item name, so the mapping never writes
      "module". */
  lemma {:induction false} MappedNames(i: nat, k: string)
    requires i < 4 && k in FeatureMapping(i)
    ensures FeatureMapping(i)[k][0] == 'Q' && FeatureMapping(i)[k] != "module"
  {
    FeatureMappingInverse(i);
    TablesInvertible(i);
    InvertibleRenderable(CodeTable(i), InverseTable(i));
    RenderedNames(InverseTable(i), FeatureMapping(i)[k]);
  }

  lemma {:induction false} Module1Entries()
    ensures 2131 in MODULE1 && MODULE1[2131] == 2110
    ensures 2132 in MODULE1 && MODULE1[2132] == 2230
  {
  }

  lemma {:induction false} SubItemNames()
    ensures ItemName(2131) == "QB13.1" && ItemName(2110) == "QB11"
    ensures ItemName(2132) == "QB13.2" && ItemName(2230) == "QB23"
  {
  }

  /** The two sub-items of Module 1's QB13 go to different ADOS items. */
  lemma {:induction false} Module1SubItems()
    ensures "QB13.1" in FeatureMapping(0) && FeatureMapping(0)["QB13.1"] == "QB11"
    ensures "QB13.2" in FeatureMapping(0) && FeatureMapping(0)["QB13.2"] == "QB23"
  {
    TablesInvertible(0);
    InvertibleRenderable(CodeTable(0), InverseTable(0));
    var table := CodeTable(0);
    Module1Entries();
    SubItemNames();
    RenderAt(table, 2131);
    RenderAt(table, 2132);
  }

  /** The names written by the mapped keys among `done`. */
  function Targets(f: map<string, string>, done: set<string>): set<string> {
    set k | k in done && k in f :: f[k]
  }

  /** Unmapped keys of the block that a mapped key of the same block also
      writes: for these the result depends on the dict's iteration order. */
  function Clashes(f: map<string, string>, block: Dict): set<string> {
    set k | k in block && k !in f && k in Targets(f, block.Keys)
  }

  /** Lines 84-85: the fresh ADOS block, the template tagged with the
      module's name. */
  function Base(template: Dict, i: nat): Dict
    requires i < 4
  {
    template["module" := Str(ADOS_INSTRUMENTS[i])]
  }

  /** The value the ADOS block holds under `t` once the block keys in
      `done` have been processed, when the block has no clash: the value of
      the key mapped to `t`, else the block's own value under `t` if the
      fresh block has that key, else the fresh block's value. */
  function Entry(f: map<string, string>, inv: map<string, string>, block: Dict, base: Dict, done: set<string>, t: string): Value
    requires done <= block.Keys
  {
    if t in inv && inv[t] in done then block[inv[t]]
    else if t in done && t !in f && t in base then block[t]
    else if t in base then base[t]
    else Null
  }

  /** The whole ADOS block at that point. */
  function Partial(f: map<string, string>, inv: map<string, string>, block: Dict, base: Dict, done: set<string>): Dict
    requires done <= block.Keys
  {
    map t | t in base.Keys + Targets(f, done) :: Entry(f, inv, block, base, done, t)
  }

  /** Lines 88-92 over the whole block. */
  function Remap(f: map<string, string>, inv: map<string, string>, block: Dict, base: Dict): Dict {
    Partial(f, inv, block, base, block.Keys)
  }

  lemma {:induction false} TargetsStep(f: map<string, string>, done: set<string>, k: string)
    ensures Targets(f, done + {k}) == Targets(f, done) + (if k in f then {f[k]} else {})
  {
    if k in f {
      assert f[k] in Targets(f, done + {k});
    }
  }

  /** Lines 89-90 for a mapped key: only its new name changes. */
  lemma {:induction false} EntryMapped(f: map<string, string>, inv: map<string, string>, block: Dict, base: Dict, done: set<string>, k: string, t: string)
    requires Inverse(f, inv) && done <= block.Keys && k in block && k in f
    ensures Entry(f, inv, block, base, done + {k}, t) == if t == f[k] then block[k] else Entry(f, inv, block, base, done, t)
  {
    if t in inv && t != f[k] {
      assert inv[t] != k;
    }
  }

  /** Lines 91-92: an unmapped key changes nothing under any other name. */
  lemma {:induction false} EntryOther(f: map<string, string>, inv: map<string, string>, block: Dict, base: Dict, done: set<string>, k: string, t: string)
    requires Inverse(f, inv) && done <= block.Keys && k in block && k !in f && t != k
    ensures Entry(f, inv, block, base, done + {k}, t) == Entry(f, inv, block, base, done, t)
  {
    if t in inv {
      assert inv[t] in f;
    }
  }

  /** Lines 91-92 for an unmapped key the ADOS block already holds, when no
      mapped key of the block writes that name: the key takes the block's
      value. */
  lemma {:induction false} EntryCopied(f: map<string, string>, inv: map<string, string>, block: Dict, base: Dict, done: set<string>, k: string)
    requires Inverse(f, inv) && done <= block.Keys && k in block && k !in f
    requires k in base.Keys + Targets(f, done) && k !in Targets(f, block.Keys)
    ensures Entry(f, inv, block, base, done + {k}, k) == block[k]
  {
    if k in inv {
      assert inv[k] in f && f[inv[k]] == k;
      assert inv[k] !in block.Keys;
    }
    assert k !in Targets(f, done);
  }

  /** Lines 91-92 for an unmapped key the ADOS block does not hold: nothing
      changes. */
  lemma {:induction false} EntrySkipped(f: map<string, string>, inv: map<string, string>, block: Dict, base: Dict, done: set<string>, k: string, t: string)
    requires Inverse(f, inv) && done <= block.Keys && k in block && k !in f && k !in base
    ensures Entry(f, inv, block, base, done + {k}, t) == Entry(f, inv, block, base, done, t)
  {
    if t in inv {
      assert inv[t] in f;
    }
  }

  /** What the loop keeps: the keys written so far, and the value of every
      key that is not a clash. */
  predicate RemappedSoFar(f: map<string, string>, inv: map<string, string>, block: Dict, base: Dict, done: set<string>, ados: Dict)
    requires done <= block.Keys
  {
    ados.Keys == base.Keys + Targets(f, done) &&
    forall t :: t in ados && t !in Clashes(f, block) ==> ados[t] == Entry(f, inv, block, base, done, t)
  }

  /** Lines 89-92 for one key of the module block. */
  method RemapKey(f: map<string, string>, inv: map<string, string>, block: Dict, base: Dict, ghost done: set<string>, ados: Dict, key: string)
    returns (next: Dict)
    requires Inverse(f, inv) && done <= block.Keys && key in block
    requires RemappedSoFar(f, inv, block, base, done, ados)
    ensures RemappedSoFar(f, inv, block, base, done + {key}, next)
  {
    TargetsStep(f, done, key);
    var clashes := Clashes(f, block);
    if key in f {
      next := ados[f[key] := block[key]];
      forall t | t in next && t !in clashes
        ensures next[t] == Entry(f, inv, block, base, done + {key}, t)
      {
        EntryMapped(f, inv, block, base, done, key, t);
      }
    } else if key in ados {
      next := ados[key := block[key]];
      forall t | t in next && t !in clashes
        ensures next[t] == Entry(f, inv, block, base, done + {key}, t)
      {
        if t == key {
          assert key !in Targets(f, block.Keys);
          EntryCopied(f, inv, block, base, done, key);
        } else {
          EntryOther(f, inv, block, base, done, key, t);
        }
      }
    } else {
      next := ados;
      forall t | t in next && t !in clashes
        ensures next[t] == Entry(f, inv, block, base, done + {key}, t)
      {
        EntrySkipped(f, inv, block, base, done, key, t);
      }
    }
  }

  /** Lines 88-92: the remap loop, visiting the block's keys in an order the
      model leaves open. Every key that is not a clash ends with its value
      in `Remap`. */
  method RemapBlock(f: map<string, string>, inv: map<string, string>, block: Dict, base: Dict) returns (ados: Dict)
    requires Inverse(f, inv)
    ensures ados.Keys == base.Keys + Targets(f, block.Keys)
    ensures forall t :: t in ados && t !in Clashes(f, block) ==> ados[t] == Remap(f, inv, block, base)[t]
  {
    ados := base;
    var todo := block.Keys;
    ghost var done: set<string> := {};
    while todo != {}
      invariant todo + done == block.Keys && todo !! done
      invariant RemappedSoFar(f, inv, block, base, done, ados)
      decreases todo
    {
      var key :| key in todo;
      ados := RemapKey(f, inv, block, base, done, ados, key);
      todo := todo - {key};
      done := done + {key};
    }
  }

  /** Lines 89-90: a mapped key of the block lands under its mapped name. */
  lemma {:induction false} RemapMapped(f: map<string, string>, inv: map<string, string>, block: Dict, base: Dict, k: string)
    requires Inverse(f, inv) && k in block && k in f
    ensures f[k] in Remap(f, inv, block, base) && Remap(f, inv, block, base)[f[k]] == block[k]
  {
    assert f[k] in Targets(f, block.Keys);
  }

  /** Lines 91-92: an unmapped key the fresh block holds is copied under
      its own name, unless it is a clash. */
  lemma {:induction false} RemapCopied(f: map<string, string>, inv: map<string, string>, block: Dict, base: Dict, k: string)
    requires Inverse(f, inv) && k in block && k !in f && k in base && k !in Clashes(f, block)
    ensures k in Remap(f, inv, block, base) && Remap(f, inv, block, base)[k] == block[k]
  {
    if k in inv {
      assert inv[k] in f && f[inv[k]] == k;
      assert inv[k] !in block;
    }
  }

  /** Lines 91-92: any other unmapped key of the block is dropped. */
  lemma {:induction false} RemapDropped(f: map<string, string>, inv: map<string, string>, block: Dict, base: Dict, k: string)
    requires Inverse(f, inv) && k in block && k !in f && k !in base && k !in Clashes(f, block)
    ensures k !in Remap(f, inv, block, base)
  {
  }

  /** A key of the fresh block that the module block neither holds nor
      writes keeps its template value. */
  lemma {:induction false} RemapUntouched(f: map<string, string>, inv: map<string, string>, block: Dict, base: Dict, t: string)
    requires Inverse(f, inv) && t in base && t !in block && t !in Targets(f, block.Keys)
    ensures t in Remap(f, inv, block, base) && Remap(f, inv, block, base)[t] == base[t]
  {
    if t in inv {
      assert inv[t] in f && f[inv[t]] == t;
    }
  }


  /** Lines 79-81: the first module from position `from` on that the sample
      holds. */
  function FirstFrom(sample: Dict, from: nat): (r: Option<nat>)
    requires from <= 4
    ensures r.Some? ==> from <= r.value < 4 && ADOS_INSTRUMENTS[r.value] in sample
    ensures r.Some? ==> forall j :: from <= j < r.value ==> ADOS_INSTRUMENTS[j] !in sample
    ensures r.None? ==> forall j :: from <= j < 4 ==> ADOS_INSTRUMENTS[j] !in sample
    decreases 4 - from
  {
    if from == 4 then None
    else if ADOS_INSTRUMENTS[from] in sample then Some(from)
    else FirstFrom(sample, from + 1)
  }

  function FirstModule(sample: Dict): Option<nat> {
    FirstFrom(sample, 0)
  }

  /** Line 88 calls `.items()` on the selected module's value only, so that
      one must be a dict; the modules after it are never looked at. */
  predicate FirstModuleIsDict(sample: Dict) {
    FirstModule(sample).Some? ==> sample[ADOS_INSTRUMENTS[FirstModule(sample).value]].Obj?
  }

  /** The four modules' mappings with their inverses, handed to the
      per-sample steps as one value so that their proofs need not look
      inside the literal tables. */
  datatype Tables = Tables(mapping: seq<map<string, string>>, inverse: seq<map<string, string>>)

  /** Four mutually inverse pairs, none of which writes "module". */
  predicate ValidTables(tables: Tables) {
    |tables.mapping| == 4 && |tables.inverse| == 4 &&
    forall i :: 0 <= i < 4 ==> Inverse(tables.mapping[i], tables.inverse[i]) && "module" !in tables.inverse[i]
  }

  /** Lines 28-71. */
  function SourceTables(): Tables {
    Tables(seq(4, i requires 0 <= i < 4 => FeatureMapping(i)), seq(4, i requires 0 <= i < 4 => InverseMapping(i)))
  }

  lemma {:induction false} ModuleNotMapped(i: nat)
    requires i < 4
    ensures Inverse(FeatureMapping(i), InverseMapping(i)) && "module" !in InverseMapping(i)
  {
    FeatureMappingInverse(i);
    if "module" in InverseMapping(i) {
      TablesInvertible(i);
      InvertibleRenderable(CodeTable(i), InverseTable(i));
      RenderedNames(InverseTable(i), "module");
    }
  }

  lemma {:induction false} SourceTablesValid()
    ensures ValidTables(SourceTables())
  {
    forall i | 0 <= i < 4
      ensures Inverse(SourceTables().mapping[i], SourceTables().inverse[i]) && "module" !in SourceTables().inverse[i]
    {
      ModuleNotMapped(i);
    }
  }

  /** Lines 78-92 for one sample, in whatever order the module block's keys
      are visited: with no module the sample is unchanged; otherwise only
      its "ADOS" field changes, to a block whose keys are the template's,
      "module" and the mapped names, and whose every non-clash key holds its
      `Remap` value. */
  predicate Aggregated(before: Dict, after: Dict, template: Dict, tables: Tables)
    requires FirstModuleIsDict(before) && ValidTables(tables)
  {
    match FirstModule(before)
    case None => after == before
    case Some(i) =>
      var block := before[ADOS_INSTRUMENTS[i]].fields;
      var base := Base(template, i);
      var f := tables.mapping[i];
      "ADOS" in after && after["ADOS"].Obj? && after == before["ADOS" := after["ADOS"]] &&
      after["ADOS"].fields.Keys == base.Keys + Targets(f, block.Keys) &&
      forall t :: t in after["ADOS"].fields && t !in Clashes(f, block) ==>
        after["ADOS"].fields[t] == Remap(f, tables.inverse[i], block, base)[t]
  }

  /** Lines 78-92 for one sample: the `ados_found` loop over the modules.
      A selected module whose value is not a dict has no `.items()`: the
      script stops with AttributeError. */
  method AggregateSample(sample: Dict, template: Dict, tables: Tables) returns (r: Result<Dict>)
    requires ValidTables(tables)
    ensures r.Err? <==> !FirstModuleIsDict(sample)
    ensures r.Err? ==> r.message == "AttributeError"
    ensures r.Ok? ==> Aggregated(sample, r.value, template, tables)
  {
    var out := sample;
    var found := false;
    for i := 0 to 4
      invariant !found ==> out == sample && FirstModule(sample) == FirstFrom(sample, i)
      invariant found ==> FirstModuleIsDict(sample) && Aggregated(sample, out, template, tables)
    {
      if !found && ADOS_INSTRUMENTS[i] in out {
        found := true;
        if !out[ADOS_INSTRUMENTS[i]].Obj? {
          return Err("AttributeError");
        }
        var ados := RemapBlock(tables.mapping[i], tables.inverse[i], out[ADOS_INSTRUMENTS[i]].fields, Base(template, i));
        out := out["ADOS" := Obj(ados)];
      }
    }
    return Ok(out);
  }

  /** Lines 77-92 over every sample of the file, in place. The run fails at
      the first sample whose selected module is not a dict, with every
      sample before it already aggregated. */
  method AggregateAll(samples: array<Dict>, template: Dict, tables: Tables) returns (ok: bool)
    requires ValidTables(tables)
    modifies samples
    ensures ok <==> forall j :: 0 <= j < samples.Length ==> FirstModuleIsDict(old(samples[j]))
    ensures ok ==> forall j :: 0 <= j < samples.Length ==> Aggregated(old(samples[j]), samples[j], template, tables)
    ensures !ok ==>
      exists j :: 0 <= j < samples.Length && !FirstModuleIsDict(old(samples[j])) &&
        forall k :: 0 <= k < j ==> FirstModuleIsDict(old(samples[k])) && Aggregated(old(samples[k]), samples[k], template, tables)
  {
    for j := 0 to samples.Length
      invariant forall k :: 0 <= k < j ==> FirstModuleIsDict(old(samples[k])) && Aggregated(old(samples[k]), samples[k], template, tables)
      invariant forall k :: j <= k < samples.Length ==> samples[k] == old(samples[k])
    {
      var r := AggregateSample(samples[j], template, tables);
      if r.Err? {
        return false;
      }
      samples[j] := r.value;
    }
    return true;
  }

  /** Line 85: the ADOS block names its module, unless the module block has
      a "module" key of its own. */
  lemma {:induction false} ModuleRecorded(before: Dict, after: Dict, template: Dict, tables: Tables)
    requires FirstModuleIsDict(before) && ValidTables(tables) && Aggregated(before, after, template, tables)
    requires FirstModule(before).Some?
    requires "module" !in before[ADOS_INSTRUMENTS[FirstModule(before).value]].fields
    ensures "ADOS" in after && after["ADOS"].Obj? && "module" in after["ADOS"].fields
    ensures after["ADOS"].fields["module"] == Str(ADOS_INSTRUMENTS[FirstModule(before).value])
  {
    var i := FirstModule(before).value;
    var block := before[ADOS_INSTRUMENTS[i]].fields;
    var f, inv := tables.mapping[i], tables.inverse[i];
    RemapUntouched(f, inv, block, Base(template, i), "module");
  }
}
