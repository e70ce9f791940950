# PhenotypeGLRM preprocessing, modelled in Dafny

PhenotypeGLRM prepares autism phenotype data for a low-rank model. The
preprocessing scripts take the answers of several studies to the ADI-R
interview and the ADOS observation, by study and by respondent. They turn
these answers into one sample per (dataset, identifier). They score each
sample with the published diagnostic algorithms. Then they flatten and
filter the samples into the matrices that the analysis reads.

This project models those scripts. It has one Dafny module per script,
plus six shared modules:

- `AssignDiagnosis` (`assign_diagnosis.py`) is the diagnosis engine. It covers:
  - the null-aware subscores;
  - the ADI-R algorithm, with its verbal gating and its before-age-3 count;
  - the four ADOS module algorithms and the virtual ADOS copy;
  - the CPEA-style diagnosis and its adjusted variant;
  - the any-signal overall diagnosis;
  - the keyword classifier for free-text clinical diagnoses.

  Each `assign_*` function is a pure step over a sample's dict. A method of
  the class `Sample` writes the step's result into the sample in place.
- `AggregatePhenotype` (`aggregate_phenotype.py`) is the answer recoder and
  the record fold. It covers:
  - the coded-value sets derived from the schema;
  - the exception, missing-data and bad-sample tables;
  - split columns;
  - the split of each answer into an ordinal value and a coded value;
  - the first-non-null merge of demographics;
  - the rule that replaces a block when the new one is more recent;
  - the Medical History flags;
  - the final removal of bad samples and the sort.

  The class `RecordStore` holds `identifier_to_samples`.
- `AdjustAdir` (`adjust_adir.py`) backfills the ADI-R current/ever pairs
  `Qx.1`/`Qx.2` and keeps the two counters.
- `AggregateAdos` (`aggregate_ados.py`) holds the per-module item tables. It
  remaps the first present ADOS module into the common "ADOS" block.
- `RemoveEmpty` (`remove_empty.py`) covers empty-instrument and then
  empty-sample removal. It works on a `SampleList` class over the list of
  samples.
- `CreateInstrumentSchema` (`create_instrument_schema.py`) covers:
  - question-id normalisation;
  - the split of options into ordinal and coded;
  - property construction.
- `CreateAdirToddlerSchema` (`create_adir_toddler_schema.py`) is the
  line-numbering state machine and its interval/ordinal classification.
- `CsvToJson` (`csv-to-json.py`) covers:
  - header-to-key-path parsing;
  - skeleton construction, both as written (every step resets the dict
    under its key) and as corrected (a dict is opened only when missing);
  - cell parsing;
  - the nested store;
  - null-filling of the schema features.
- `CleanOrdinals` (`clean_ordinals.py`) covers:
  - the in-place +1 shift;
  - option selection;
  - feature dropping;
  - the ±1 and rank recoding;
  - the option map.
- `PrepareGenderAnalysis` (`prepare_gender_analysis.py`) covers:
  - the gender and diagnosis codes;
  - the ordered row selection shared by the three outputs.
- `FilterOrdinalFeatures` (`filter_ordinal_features.py`) covers:
  - the null counts;
  - the choice of ordinal columns through the schema;
  - writing `''` as `'None'`.
- `FilterAutismKnownSex` (`filter_autism_known_sex.py`) is the paired-row
  filter on known sex.
- `KeepOnlyBothInstruments` (`keep_only_both_instruments.py`) keeps the
  samples that have both instruments.
- Shared modules:
  - `Wrappers`: Option and Result, standing in for None and for Python
    exceptions.
  - `Json`: the JSON/dict value tree.
  - `Strings`: the parts of Python's `str` that the scripts use.
  - `Lists`: `list.index` and selection by an index list.
  - `Subsequences`: order-preserving selection.
  - `SchemaDict`: the insertion-ordered `properties` dict of the two schema
    builders.

A Python exception that ends a run is an `Err` result. Each state-changing
loop of the source is a Dafny method with its loop. The method is proved
against a specification function. That function's own properties are
proved as lemmas.

## Model

| member | source | states |
|---|---|---|
| AdjustAdir.EverKey | preprocessing/adjust_adir.py:25 | the ever half of a pair is the current key with its trailing ".1" replaced by ".2": same length, same stem |
| AdjustAdir.PairsDisjoint | preprocessing/adjust_adir.py:23-25 | two different pairs share no key |
| AdjustAdir.FillPairSpec | preprocessing/adjust_adir.py:26-38 | for one pair, a lone answer is copied to the empty half, the pair ends balanced, the counters say which half was filled, and no other key changes |
| AdjustAdir.FillBalanced | preprocessing/adjust_adir.py:29-38 | a pair that is already balanced is left as it is and no counter moves |
| AdjustAdir.FillPairKeeps | preprocessing/adjust_adir.py:22-38 | the fill of one pair keeps every other pair as it was |
| AdjustAdir.BackfillKeepsBalanced | preprocessing/adjust_adir.py:22-38 | a balanced pair stays balanced through the rest of the pass |
| AdjustAdir.BackfillBalances | preprocessing/adjust_adir.py:22-38 | after the pass every pair of the schema is balanced |
| AdjustAdir.BackfillNothingToDo | preprocessing/adjust_adir.py:29-38 | on a block whose pairs are all balanced the pass changes nothing |
| AdjustAdir.BackfillIdempotent | preprocessing/adjust_adir.py:22-38 | a second pass over the same schema changes nothing and fills nothing |
| AdjustAdir.FillsUnchanged | preprocessing/adjust_adir.py:29-38 | a fill of one pair changes no fill count of the other pairs |
| AdjustAdir.BackfillCounts | preprocessing/adjust_adir.py:31-36 | when the schema lists each feature once, the counters are exactly the number of current and ever fills the block needed before the pass |
| AdjustAdir.AdjustSampleFrame | preprocessing/adjust_adir.py:20-21 | a sample without an ADIR block is untouched, and no field other than the ADIR block ever changes |
| AdjustAdir.AdjustAllLength | preprocessing/adjust_adir.py:18-38 | the adjustment keeps the number and the order of the samples |
| AdjustAdir.AdjustSampleCounters | preprocessing/adjust_adir.py:18-38 | the adjusted sample does not depend on the counters, which only accumulate |
| AdjustAdir.BackfillCountersFree | preprocessing/adjust_adir.py:22-38 | the adjusted block does not depend on the counters' starting values |
| AdjustAdir.BackfillCounterShift | preprocessing/adjust_adir.py:31-36 | starting the counters at `current` and `ever` adds those values to the final counts |
| AdjustAdir.BackfillBlock | preprocessing/adjust_adir.py:22-38 | the loop over the schema's features returns `BackfillFrom(b, features, 0, 0)`, the recursive backfill whose properties the lemmas above state: the filled block and its two counts, or KeyError when a half of a pair is missing |
| AdjustAdir.AdjustSamples | preprocessing/adjust_adir.py:18-38 | the pass over the samples, in place, leaves the array and the two counters as `AdjustAll` states, and reports failure exactly when the source raises |
| AggregateAdos.ItemNameInjective | preprocessing/aggregate_ados.py:28-71 | two valid item codes with the same rendered name (such as "QB13.1") are the same code, so the string tables keep the injectivity of the coded ones |
| AggregateAdos.ItemNameIsQuestion | preprocessing/aggregate_ados.py:28-71 | every item name starts with 'Q' and has at least four characters, so no item is called "module" |
| AggregateAdos.Module1Invertible | preprocessing/aggregate_ados.py:29-39 | the Module 1 table and its inverse are inverse to each other: no two Module 1 items are written to the same ADOS item |
| AggregateAdos.Module2Invertible | preprocessing/aggregate_ados.py:40-49 | the same for the Module 2 table |
| AggregateAdos.Module3Invertible | preprocessing/aggregate_ados.py:50-60 | the same for the Module 3 table |
| AggregateAdos.Module4Invertible | preprocessing/aggregate_ados.py:61-70 | the same for the Module 4 table |
| AggregateAdos.TablesInvertible | preprocessing/aggregate_ados.py:28-73 | the table of each of the four modules is invertible |
| AggregateAdos.RenderInverse | preprocessing/aggregate_ados.py:28-71 | rendering the coded tables as item names keeps a table and its inverse inverse to each other |
| AggregateAdos.RenderedNames | preprocessing/aggregate_ados.py:28-71 | every rendered key is an item name, never "module" |
| AggregateAdos.FeatureMappingInverse | preprocessing/aggregate_ados.py:28-71 | each module's `feature_mapping` entry has an inverse |
| AggregateAdos.FeatureMappingInjective | preprocessing/aggregate_ados.py:28-71 | no two items of one module are mapped to the same ADOS item |
| AggregateAdos.MappedNames | preprocessing/aggregate_ados.py:28-71 | every mapped name starts with 'Q', so line 90 never overwrites the "module" field set on line 85 |
| AggregateAdos.Module1SubItems | preprocessing/aggregate_ados.py:34 | Module 1's QB13.1 goes to QB11 and QB13.2 to QB23 |
| AggregateAdos.EntryMapped | preprocessing/aggregate_ados.py:89-90 | processing a mapped key changes the ADOS block only under the key's mapped name, which takes the key's value |
| AggregateAdos.EntryOther | preprocessing/aggregate_ados.py:91-92 | processing an unmapped key changes nothing under any other name |
| AggregateAdos.EntryCopied | preprocessing/aggregate_ados.py:91-92 | an unmapped key that the ADOS block holds, and that no mapped key writes, takes the module block's value |
| AggregateAdos.EntrySkipped | preprocessing/aggregate_ados.py:91-92 | an unmapped key that the ADOS block does not hold changes nothing |
| AggregateAdos.RemapKey | preprocessing/aggregate_ados.py:89-92 | one step of the remap loop extends the invariant "every name holds its `Entry` value for the keys done so far" by one key |
| AggregateAdos.RemapBlock | preprocessing/aggregate_ados.py:88-92 | whatever order the keys are visited in, the ADOS block's keys are the template's plus the mapped names, and every name that is not a clash holds its `Remap` value |
| AggregateAdos.RemapMapped | preprocessing/aggregate_ados.py:89-90 | a mapped key of the module block lands under its mapped name with its value |
| AggregateAdos.RemapCopied | preprocessing/aggregate_ados.py:91-92 | an unmapped key that the fresh block holds is copied under its own name, unless it is a clash |
| AggregateAdos.RemapDropped | preprocessing/aggregate_ados.py:91-92 | any other unmapped key of the module block is dropped |
| AggregateAdos.RemapUntouched | preprocessing/aggregate_ados.py:84 | a template key that the module block neither holds nor writes keeps its template value |
| AggregateAdos.FirstFrom | preprocessing/aggregate_ados.py:79-81 | the result is the first module from `from` on that the sample holds, or none when it holds none of them |
| AggregateAdos.ModuleNotMapped | preprocessing/aggregate_ados.py:28-71 | the inverse of each module's mapping has no "module" key |
| AggregateAdos.SourceTablesValid | preprocessing/aggregate_ados.py:28-73 | the four source tables satisfy the validity conditions the aggregation relies on |
| AggregateAdos.AggregateSample | preprocessing/aggregate_ados.py:78-92 | fails with AttributeError exactly when the first module the sample holds is not a dict (later modules are never looked at); otherwise a sample without an ADOS module is unchanged, and one with a module changes only its "ADOS" field, to the remap of its first module's block over the template, named after that module |
| AggregateAdos.AggregateAll | preprocessing/aggregate_ados.py:77-92 | the run succeeds exactly when every sample's first module is a dict, and then every sample of the array, in place, is aggregated as `AggregateSample` states; otherwise it stops at a failing sample with every sample before it aggregated |
| AggregateAdos.ModuleRecorded | preprocessing/aggregate_ados.py:85 | when the module block has no "module" key of its own, the ADOS block records the name of the module it was built from |
| AggregatePhenotype.RemoveFirst | preprocessing/aggregate_phenotype.py:48-49 | `list.remove` succeeds exactly when the value is present, and removes one copy of it (as a multiset) |
| AggregatePhenotype.CodedSet | preprocessing/aggregate_phenotype.py:47-50 | the coded set exists exactly when the enum holds None and 0, since each `remove` raises ValueError otherwise |
| AggregatePhenotype.CodedSetMembers | preprocessing/aggregate_phenotype.py:47-50 | a value is coded exactly when the enum holds more copies of it than the removed None and 0 use up |
| AggregatePhenotype.CodedSetOfSchemaEnum | preprocessing/aggregate_phenotype.py:47-50 | an enum of the form `[None, 0] + coded` gives back exactly the coded options |
| AggregatePhenotype.EnumOf | preprocessing/aggregate_phenotype.py:47 | reading `['enum']` succeeds exactly when the property is an object with a list under "enum" |
| AggregatePhenotype.CodesOfShape | preprocessing/aggregate_phenotype.py:43-52 | an item gets an entry exactly when it starts with 'Q' and does not end with 'a', and the entry is a set exactly when the 'a' counterpart exists |
| AggregatePhenotype.CodesOfMembers | preprocessing/aggregate_phenotype.py:46-50 | the set of an item with a coded counterpart holds the values its counterpart's enum lists beyond one None and one 0 |
| AggregatePhenotype.PropertiesOf | preprocessing/aggregate_phenotype.py:43 | reading `['properties']` succeeds exactly when the definition is an object with an object under "properties" |
| AggregatePhenotype.DeriveCodes | preprocessing/aggregate_phenotype.py:42-52 | the loop over one instrument's properties, in any key order, succeeds exactly when the definition is derivable and then returns `CodesOfDefinition`, whose shape and members the lemmas above state |
| AggregatePhenotype.DeriveCodebook | preprocessing/aggregate_phenotype.py:40-52 | the loop over the instruments succeeds exactly when every definition is derivable and then returns one codes map per instrument |
| AggregatePhenotype.NullAlwaysMissing | preprocessing/aggregate_phenotype.py:125-131 | None is a missing-data value of every instrument |
| AggregatePhenotype.RawAnswer | preprocessing/aggregate_phenotype.py:233-240 | the raw answer of an item is None or a cell's text; a split column reads its second cell only when the first is missing data |
| AggregatePhenotype.Remap | preprocessing/aggregate_phenotype.py:243-246 | an answer the exception table does not list for the item is left unchanged |
| AggregatePhenotype.CodedValuesFor | preprocessing/aggregate_phenotype.py:249 | looking up the coded set fails with KeyError exactly when neither the item nor "default" has an entry |
| AggregatePhenotype.Interpret | preprocessing/aggregate_phenotype.py:252-263 | interpretation fails exactly when the answer is neither missing data nor a text that `int()` parses (a narrower set than `int(round(float(·)))` accepts; see Left out) |
| AggregatePhenotype.InterpretDecodes | preprocessing/aggregate_phenotype.py:259-261 | with a coded set, the answer goes to exactly one slot and can be read back: either the coded slot holds it and the ordinal slot is None, or the ordinal slot holds it and the coded slot is 0 |
| AggregatePhenotype.InterpretMissingDistinct | preprocessing/aggregate_phenotype.py:255-261 | the coded slot is None exactly for a missing answer, so "not answered" stays apart from "answered outside the coded set", which gives 0 |
| AggregatePhenotype.InterpretOrdinalOnly | preprocessing/aggregate_phenotype.py:262-263 | without a coded set the parsed answer goes to the ordinal slot |
| AggregatePhenotype.ExceptionTargets | preprocessing/aggregate_phenotype.py:55-122 | every replacement in the exception table is one of the few listed answers |
| AggregatePhenotype.InstrumentTargets | preprocessing/aggregate_phenotype.py:55-122 | the table of each instrument, the ADI-R one and each ADOS module's, maps every exception only to one of the listed answers |
| AggregatePhenotype.TargetsInterpret | preprocessing/aggregate_phenotype.py:252-263 | each of those replacements is None or a number, so interpreting it never fails |
| AggregatePhenotype.ExceptionsRepair | preprocessing/aggregate_phenotype.py:242-258 | an answer the exception table maps away is always interpreted without error |
| AggregatePhenotype.RecodeItem | preprocessing/aggregate_phenotype.py:265-268 | writing one item adds exactly its name, and its 'a' name when it has a coded set, and changes no other key |
| AggregatePhenotype.RecodeItemsFails | preprocessing/aggregate_phenotype.py:231-268 | the loop over the items fails exactly when some item's answer cannot be read or interpreted |
| AggregatePhenotype.RecodeItemsKeys | preprocessing/aggregate_phenotype.py:231-268 | the loop adds exactly the keys the items write and changes no other key |
| AggregatePhenotype.RecodeItemsValue | preprocessing/aggregate_phenotype.py:231-268 | when no two items share a name, each item's keys end up holding that item's own ordinal and coded values |
| AggregatePhenotype.WrittenKeysNames | preprocessing/aggregate_phenotype.py:265-268 | every written key is an item's name or its name followed by 'a' |
| AggregatePhenotype.RecodeRow | preprocessing/aggregate_phenotype.py:231-268 | the loop over the column table returns `RecodeItems`, whose keys and values the lemmas above state |
| AggregatePhenotype.PairResolves | preprocessing/aggregate_phenotype.py:233-234 | a split column reads like the single column it resolves to |
| AggregatePhenotype.NoColumnIsMissing | preprocessing/aggregate_phenotype.py:237-238 | an item without a column gives None in both slots |
| AggregatePhenotype.SourceWellFormed | preprocessing/aggregate_phenotype.py:55-144 | the source's tables of exceptions, missing-data values and scores satisfy the conditions the model's lemmas require |
| AggregatePhenotype.SourceInstrumentsAreNotFields | preprocessing/aggregate_phenotype.py:138-144 | no instrument name is a sample field, so an instrument block never overwrites the demographics |
| AggregatePhenotype.SourceScoresAreNotAgeOrDate | preprocessing/aggregate_phenotype.py:138-144 | no score is called "age" or "interview_date", so the score loop never clears the row's age or date |
| AggregatePhenotype.SourceNullIsMissing | preprocessing/aggregate_phenotype.py:125-131 | every instrument's missing-data set holds None |
| AggregatePhenotype.FreshBlock | preprocessing/aggregate_phenotype.py:217-224 | the fresh block holds exactly the age, the interview date and the instrument's scores |
| AggregatePhenotype.FreshBlockFields | preprocessing/aggregate_phenotype.py:217-224 | the fresh block holds the row's age and date and None for every score |
| AggregatePhenotype.BlockBuilds | preprocessing/aggregate_phenotype.py:217-268 | a block is built whenever the items can be read, and it holds exactly the fresh fields and the item keys |
| AggregatePhenotype.BlockIsFresh | preprocessing/aggregate_phenotype.py:217-268 | a replaced block keeps nothing of the old one: every field no item writes is as the fresh block has it |
| AggregatePhenotype.NewSample | preprocessing/aggregate_phenotype.py:197-208 | a sample seen for the first time has every demographic field |
| AggregatePhenotype.MergeFirstNonNull | preprocessing/aggregate_phenotype.py:176-194 | a stored demographic value is never overwritten, a stored None takes the row's value, and no other field changes |
| AggregatePhenotype.ConflictsAreKeptValues | preprocessing/aggregate_phenotype.py:176-194 | with each test gated on the row's own value, a field is reported exactly when the merge keeps a stored value against a different non-null row value |
| AggregatePhenotype.ConflictsAsWrittenMisreports | preprocessing/aggregate_phenotype.py:186-194 | as written, a differing ethnicity in a row without race is not reported, and a row with race but no ethnicity reports a mismatch against None |
| AggregatePhenotype.ReplacesRule | preprocessing/aggregate_phenotype.py:216 | the block is replaced exactly when there is none, its age is None, or the row's age is set and strictly greater |
| AggregatePhenotype.NewSampleKeyed | preprocessing/aggregate_phenotype.py:197-209 | a new sample carries its own dataset and identifier and exactly the sample fields |
| AggregatePhenotype.MergeKeyed | preprocessing/aggregate_phenotype.py:172-194 | the merge keeps the dataset, the identifier and the set of fields |
| AggregatePhenotype.MergedSampleKeyed | preprocessing/aggregate_phenotype.py:172-209 | the merged sample carries its key; a stored sample keeps its fields and a new one has no instrument block |
| AggregatePhenotype.InstrumentNotDemographic | preprocessing/aggregate_phenotype.py:138-144 | no instrument is a demographic field |
| AggregatePhenotype.UpdatedSampleFrame | preprocessing/aggregate_phenotype.py:211-268 | the update touches the instrument field and no other field |
| AggregatePhenotype.UpdatedSampleKeyed | preprocessing/aggregate_phenotype.py:211-268 | the update keeps the sample's dataset and identifier |
| AggregatePhenotype.UpdatedSampleBlock | preprocessing/aggregate_phenotype.py:216-268 | a good sample ends up with the row's block when the replacement rule says so and keeps its stored block otherwise |
| AggregatePhenotype.AfterRowValid | preprocessing/aggregate_phenotype.py:165-268 | a row keeps the store valid: every sample keyed by its own dataset and identifier, and bad samples without instrument blocks |
| AggregatePhenotype.StoreUpdateValid | preprocessing/aggregate_phenotype.py:209 | writing a keyed sample, block-free when bad, keeps the store valid |
| AggregatePhenotype.AfterRowOthers | preprocessing/aggregate_phenotype.py:165-268 | a row changes only its own sample, which is in the store afterwards |
| AggregatePhenotype.AfterRowDemographics | preprocessing/aggregate_phenotype.py:172-194 | after a row, each demographic field is the stored value when it was set, and the row's value otherwise |
| AggregatePhenotype.AfterRowBlock | preprocessing/aggregate_phenotype.py:211-268 | after a row of a good sample, the instrument block is the row's block when the replacement rule says so and the stored block otherwise |
| AggregatePhenotype.AfterRowBadSample | preprocessing/aggregate_phenotype.py:211-212 | a row of a bad sample always succeeds and leaves the sample without instrument blocks |
| AggregatePhenotype.BlockNewAge | preprocessing/aggregate_phenotype.py:217-218 | the row's block carries the row's age when no item writes "age" |
| AggregatePhenotype.AgeNeverDecreases | preprocessing/aggregate_phenotype.py:214-216 | once a block with an integer age is stored, a later row never lowers that age and never removes the block |
| AggregatePhenotype.AfterRowsKeys | preprocessing/aggregate_phenotype.py:163-209 | after a file, the store is still valid and holds the earlier samples plus one per (dataset, identifier) of its rows |
| AggregatePhenotype.AfterRowKeys | preprocessing/aggregate_phenotype.py:172-209 | a row adds its own key to the store and no other |
| AggregatePhenotype.InitBlock | preprocessing/aggregate_phenotype.py:217-224 | the loop over the scores builds the fresh block |
| AggregatePhenotype.MergeRow | preprocessing/aggregate_phenotype.py:176-194 | the four field tests produce the merged sample and the corrected list of reported conflicts |
| AggregatePhenotype.MergeOne | preprocessing/aggregate_phenotype.py:176-179 | one demographic field: a None takes the row's value, and a report is made exactly when a set value differs from a non-null row value |
| AggregatePhenotype.BuildBlock | preprocessing/aggregate_phenotype.py:217-268 | the steps build the row's block, with KeyError where an instrument table has no entry |
| AggregatePhenotype.UpdateSample | preprocessing/aggregate_phenotype.py:211-268 | a bad sample is skipped; otherwise the instrument block is replaced when the row is more recent |
| AggregatePhenotype.ZeroFlags | preprocessing/aggregate_phenotype.py:524-533 | the fresh Medical History block holds exactly the eight categories, each 0 |
| AggregatePhenotype.FlagDiagnosesFlags | preprocessing/aggregate_phenotype.py:534-538 | after the fold, the block holds the starting keys plus the categories hit; a hit category is 1 and every other keeps its starting value |
| AggregatePhenotype.FlagAll | preprocessing/aggregate_phenotype.py:534-538 | the loop over the split diagnoses flags them as `FlagDiagnoses` does from the zero block and collects exactly the diagnoses with no category |
| AggregatePhenotype.HistoryBlockFlags | preprocessing/aggregate_phenotype.py:524-538 | a category of the block is 1 exactly when one of the line's diagnoses belongs to it, and every value is 0 or 1 |
| AggregatePhenotype.FlagHistory | preprocessing/aggregate_phenotype.py:534-538 | the loop over the diagnoses builds the history block and collects exactly the diagnoses without a category |
| AggregatePhenotype.AfterHistoryLineFrame | preprocessing/aggregate_phenotype.py:520-538 | a history line adds no sample and changes only the Medical History field of the sample it names |
| AggregatePhenotype.AfterHistoryLinesFrame | preprocessing/aggregate_phenotype.py:518-538 | the whole history file keeps every sample and every field other than the Medical History block |
| AggregatePhenotype.AfterHistoryLineValid | preprocessing/aggregate_phenotype.py:520-538 | a history line keeps the store valid |
| AggregatePhenotype.AfterHistoryLinesValid | preprocessing/aggregate_phenotype.py:518-538 | the whole history file keeps the store valid |
| AggregatePhenotype.CategoriesLowerCase | preprocessing/aggregate_phenotype.py:511-514 | every key of the category table is lower case, so the lower-cased diagnoses of line 534 can match it |
| AggregatePhenotype.CategoriesLastWins | preprocessing/aggregate_phenotype.py:512-514 | the last line that names a diagnosis decides its category |
| AggregatePhenotype.ReadCategories | preprocessing/aggregate_phenotype.py:511-514 | the loop over the lines returns `Categories`, whose lemmas are above, or IndexError on a line without a tab |
| AggregatePhenotype.SortedListingUnique | preprocessing/aggregate_phenotype.py:1229-1230 | two strictly sorted listings of the same keys are equal, so the sample order is fully determined |
| AggregatePhenotype.InsertSorted | preprocessing/aggregate_phenotype.py:1230 | inserting a key into strictly sorted keys gives strictly sorted keys holding exactly one more key |
| AggregatePhenotype.SortKeys | preprocessing/aggregate_phenotype.py:1229-1230 | a set of keys is listed in strictly increasing (dataset, identifier) order, each key once |
| AggregatePhenotype.RecordStore.constructor | preprocessing/aggregate_phenotype.py:150 | the store starts empty and valid |
| AggregatePhenotype.RecordStore.ConvertRow | preprocessing/aggregate_phenotype.py:165-268 | one row updates the store to `AfterRow`, keeps it valid, fails exactly where the source raises, and returns the conflicts the corrected tests report |
| AggregatePhenotype.RecordStore.ConvertPhenotypes | preprocessing/aggregate_phenotype.py:163-270 | every row of one file, in order, updates the store to `AfterRows` and keeps it valid |
| AggregatePhenotype.RecordStore.HistoryLine | preprocessing/aggregate_phenotype.py:520-538 | one history line updates the store to `AfterHistoryLine` and returns its unmatched diagnoses |
| AggregatePhenotype.RecordStore.AddMedicalHistory | preprocessing/aggregate_phenotype.py:516-538 | the history file updates the store to `AfterHistory`, keeps it valid, and returns every diagnosis without a category; an empty file fails at the header |
| AggregatePhenotype.RecordStore.RemoveBadSamples | preprocessing/aggregate_phenotype.py:1223-1226 | the store afterwards is the old store without the bad samples |
| AggregatePhenotype.RecordStore.Listing | preprocessing/aggregate_phenotype.py:1228-1230 | the samples are listed each once, in strictly increasing (dataset, identifier) order |
| AggregatePhenotype.RecordStore.Finalize | preprocessing/aggregate_phenotype.py:1223-1230 | drop the bad samples, then list every remaining sample once in (dataset, identifier) order |
| AssignDiagnosis.NullCountIsMultiplicity | preprocessing/assign_diagnosis.py:32 | a subscore's null count is the number of None entries among its score entries |
| AssignDiagnosis.SubscoreAppend | preprocessing/assign_diagnosis.py:28-33 | the clamped sum, the plain sum and the null count are additive over concatenated entry lists, so the extra entries of line 30 add their own share |
| AssignDiagnosis.ClampedSumBounds | preprocessing/assign_diagnosis.py:28 | with non-negative items the default subscore (3 counts as 2, above 3 as 0) lies between 0 and twice the number of non-null entries |
| AssignDiagnosis.Entries | preprocessing/assign_diagnosis.py:29 | the score entries are the block's values of the listed features, one per feature, in order |
| AssignDiagnosis.Verbal | preprocessing/assign_diagnosis.py:51 | verbal status is unknown exactly when Q30 is null, and verbal exactly when Q30 is 0 |
| AssignDiagnosis.MaxOrWhichever | preprocessing/assign_diagnosis.py:72-74 | the C3 and C4 extra entry is the larger of the two items when both are present, the one present otherwise, and null only when both are |
| AssignDiagnosis.BeforeThreeCounts | preprocessing/assign_diagnosis.py:80-88 | the before-age-3 score counts the non-null items of Q02, Q09, Q10, Q86, Q87 that meet their condition; a null item never contributes |
| AssignDiagnosis.ReadAdir | preprocessing/assign_diagnosis.py:41-88 | the entries the ADI-R algorithm reads, with Q64.2 or Q65.2 by age and Q39.2 or 0 by verbal status; the before-age-3 group has five items and the verbal flag is Q30's |
| AssignDiagnosis.ScoreItems | preprocessing/assign_diagnosis.py:40-77 | social interaction and repetitive behaviour are the sums of their four sub-scores; B2 and B3 are computed exactly for a verbal individual; otherwise communication adds the stored B2 and B3, counting null as 0 |
| AssignDiagnosis.ScoreAdir | preprocessing/assign_diagnosis.py:90-96 | the ADI-R label is Autism or Control |
| AssignDiagnosis.AdirDiagnosisRule | preprocessing/assign_diagnosis.py:90-96 | Autism exactly when social interaction is at least 10, repetitive behaviour at least 3, the before-age-3 score at least 1, and communication at least 8, or at least 7 when Q30 is not 0 |
| AssignDiagnosis.AdirNullConservation | preprocessing/assign_diagnosis.py:97 | `diagnosis_num_nulls` is the number of null entries over all sub-scores, plus one when Q30 is null |
| AssignDiagnosis.AdirWritesNames | preprocessing/assign_diagnosis.py:31 | the ADI-R step writes score names only, never a question item or the age |
| AssignDiagnosis.AdirWritesGate | preprocessing/assign_diagnosis.py:57-60 | B2 and B3 are written exactly when they are computed |
| AssignDiagnosis.ScoreWritesScored | preprocessing/assign_diagnosis.py:94-97 | a block whose five score fields are written last is scored and holds the written diagnosis and null count |
| AssignDiagnosis.AdirBlockScored | preprocessing/assign_diagnosis.py:35-97 | the scored ADI-R block keeps every field it had and holds the five score fields with integer totals and the computed diagnosis and null count |
| AssignDiagnosis.ReadAdirUnwritten | preprocessing/assign_diagnosis.py:31 | writing score names only, and not B2 or B3 for a non-verbal individual, leaves everything the ADI-R algorithm reads as it was |
| AssignDiagnosis.AdirGateUnwritten | preprocessing/assign_diagnosis.py:57-60 | a non-verbal individual's B2 and B3 are not written |
| AssignDiagnosis.AdirStaysReadable | preprocessing/assign_diagnosis.py:35-97 | the scored block reads exactly as the block did |
| AssignDiagnosis.AdirIdempotent | preprocessing/assign_diagnosis.py:35-97 | scoring an ADI-R block twice gives the block scored once |
| AssignDiagnosis.BandMonotone | preprocessing/assign_diagnosis.py:115-118 | with fixed cut-offs a higher total never gives a lower label in the order Control, Autism Spectrum, Autism |
| AssignDiagnosis.ScoreModule1 | preprocessing/assign_diagnosis.py:100-119 | the Module 1 null count is the null entries of the three groups plus one for a null QA01 |
| AssignDiagnosis.Module1Cutoffs | preprocessing/assign_diagnosis.py:113-118 | Autism, Autism Spectrum or Control by the total against 16/11 when QA01 is null or at least 3, and 12/8 otherwise |
| AssignDiagnosis.ScoreModule2 | preprocessing/assign_diagnosis.py:122-142 | the Module 2 null count is the null entries of the three groups plus one for a null age |
| AssignDiagnosis.Module2Cutoffs | preprocessing/assign_diagnosis.py:135-141 | the total against 9/8 from 60 months on and 10/7 below or with the age unknown |
| AssignDiagnosis.ScoreModule3 | preprocessing/assign_diagnosis.py:144-159 | the Module 3 null count is the null entries of the three groups |
| AssignDiagnosis.Module3Cutoffs | preprocessing/assign_diagnosis.py:157-158 | the total against 9/7 |
| AssignDiagnosis.Module3Monotone | preprocessing/assign_diagnosis.py:157-158 | a Module 3 block with a higher total never gets a lower label |
| AssignDiagnosis.ScoreModule4 | preprocessing/assign_diagnosis.py:161-180 | Autism exactly when communication is at least 3, social interaction at least 6 and their sum at least 10; Autism Spectrum exactly when not that but at least 2, 4 and 7 |
| AssignDiagnosis.Module4IgnoresRrb | preprocessing/assign_diagnosis.py:174-179 | two Module 4 blocks that agree on the communication and social items get the same label whatever their repetitive-behaviour items |
| AssignDiagnosis.Module4Monotone | preprocessing/assign_diagnosis.py:174-179 | raising communication or social interaction never lowers the Module 4 label |
| AssignDiagnosis.ScoreWrites | preprocessing/assign_diagnosis.py:186 | every instrument step writes the five fields the virtual ADOS step copies |
| AssignDiagnosis.VirtualAdosCopies | preprocessing/assign_diagnosis.py:183-187 | the ADOS block gets the five fields of the module named in `ADOS.module`, keeps its other fields, gains no other field, and nothing else in the sample changes |
| AssignDiagnosis.Cpea | preprocessing/assign_diagnosis.py:190-222 | the CPEA label is one of Autism, Aspergers, Autism Spectrum, Control |
| AssignDiagnosis.SpectrumPairsTable | preprocessing/assign_diagnosis.py:214-217 | the four spectrum conditions are the rows of a table of social and communication cut-offs, the lower communication cut-off applying only when Q30 is known and not 0 |
| AssignDiagnosis.CpeaPriority | preprocessing/assign_diagnosis.py:206-222 | Autism exactly when ADI-R says Autism and ADOS is positive; Aspergers only when ADI-R is not Autism with social interaction at least 10; Autism Spectrum only when ADOS says Autism Spectrum; Control when ADOS is negative with social plus communication under 4 |
| AssignDiagnosis.AdjustedCpea | preprocessing/assign_diagnosis.py:225-239 | None without both blocks; otherwise the CPEA label, except that Control becomes Suspected Control unless both instruments say Control |
| AssignDiagnosis.Signals | preprocessing/assign_diagnosis.py:243-250 | the seven diagnoses the overall rule looks at |
| AssignDiagnosis.OverallRule | preprocessing/assign_diagnosis.py:251-256 | Autism exactly when some signal is positive; Control exactly when none is positive and one is Control; None exactly when neither |
| AssignDiagnosis.ClassifyClinical | preprocessing/assign_diagnosis.py:258-274 | a text containing "aut" is Autism, and Control needs the lower-cased text to be one of the three Control keywords exactly |
| AssignDiagnosis.ClinicalRuleOrder | preprocessing/assign_diagnosis.py:261-270 | the empty text gives None; an Asperger text is Autism or Asperger; PDD-NOS only when no earlier rule matched |
| AssignDiagnosis.ClinicalControlIsExact | preprocessing/assign_diagnosis.py:260-268 | the text is lower-cased but not trimmed, so a text starting with white space is never Control |
| AssignDiagnosis.ClinicalNosIsSubstring | preprocessing/assign_diagnosis.py:269-270 | "nos" is matched as a substring, so any text mentioning "diagnosis" is classified |
| AssignDiagnosis.ModuleBlockScored | preprocessing/assign_diagnosis.py:100-180 | a scored module block holds the five fields with the computed diagnosis and keeps every field it had |
| AssignDiagnosis.AdirStepFails | preprocessing/assign_diagnosis.py:35-97 | the ADI-R step fails exactly on a block it cannot read |
| AssignDiagnosis.AdirIgnoresUnread | preprocessing/assign_diagnosis.py:41-73 | a block without the gated items the algorithm skips for it (Q65.2 under 120 months or with age null, Q64.2 otherwise, Q39.2 unless verbal) is still readable and reads exactly as the full block |
| AssignDiagnosis.AdirStepFrame | preprocessing/assign_diagnosis.py:35-97 | the ADI-R step keeps the sample's keys and every field other than the ADI-R block |
| AssignDiagnosis.AdirStepScores | preprocessing/assign_diagnosis.py:35-97 | the ADI-R block after the step is scored, still readable, and carries the ADI-R label |
| AssignDiagnosis.ModuleStepFails | preprocessing/assign_diagnosis.py:100-180 | a module step fails exactly on a block it cannot read |
| AssignDiagnosis.ModuleStepFrame | preprocessing/assign_diagnosis.py:100-180 | a module step keeps the sample's keys and every field other than its block |
| AssignDiagnosis.ModuleStepScores | preprocessing/assign_diagnosis.py:100-180 | the module block after the step is scored and carries that module's label |
| AssignDiagnosis.AssignAllOverall | preprocessing/assign_diagnosis.py:276-289 | after all the steps the top-level diagnosis is Autism exactly when one of the six instrument diagnoses or the CPEA diagnosis is positive, and Control exactly when none is positive and one is Control |
| AssignDiagnosis.AssignAllSucceeds | preprocessing/assign_diagnosis.py:276-289 | a sample with readable instrument blocks, an ADOS block naming a module it holds, a CPEA input and a string-or-None clinical text goes through every step without an error |
| AssignDiagnosis.Sample.AssignAdirDiagnosis | preprocessing/assign_diagnosis.py:35-97 | the sample, in place, becomes the ADI-R step's result, or stays as it was when the step fails |
| AssignDiagnosis.Sample.AssignModuleDiagnosis | preprocessing/assign_diagnosis.py:100-180 | the same for one ADOS module step |
| AssignDiagnosis.Sample.AssignAdosDiagnosis | preprocessing/assign_diagnosis.py:183-187 | the same for the virtual ADOS step |
| AssignDiagnosis.Sample.AssignCpeaDiagnosis | preprocessing/assign_diagnosis.py:190-222 | the same for the CPEA step |
| AssignDiagnosis.Sample.AssignCpeaAdjustedDiagnosis | preprocessing/assign_diagnosis.py:225-239 | the same for the adjusted CPEA step |
| AssignDiagnosis.Sample.AssignDiagnosis | preprocessing/assign_diagnosis.py:242-256 | the same for the overall diagnosis |
| AssignDiagnosis.Sample.AssignClinicalDiagnosis | preprocessing/assign_diagnosis.py:258-274 | the same for the clinical diagnosis |
| AssignDiagnosis.Sample.AssignAllDiagnoses | preprocessing/assign_diagnosis.py:276-289 | the steps in the source's order report success exactly when `AssignAll` succeeds, and the sample then holds its result |
| CleanOrdinals.Cells | preprocessing/clean_ordinals.py:15 | the loaded matrix as rows of equal length holding the array's cells |
| CleanOrdinals.ShiftedCells | preprocessing/clean_ordinals.py:23-24 | the shift keeps the shape and adds one to every cell, so a cell is 0 exactly when the answer was coded -1 (missing) and positive exactly when it was an answer from 0 up |
| CleanOrdinals.UnshiftShifted | preprocessing/clean_ordinals.py:50 | the map file's `x - 1` undoes the shift of line 24 |
| CleanOrdinals.Insert | preprocessing/clean_ordinals.py:30 | putting a value into a strictly increasing list keeps it strictly increasing and adds exactly that value |
| CleanOrdinals.Unique | preprocessing/clean_ordinals.py:30 | `np.unique` gives the distinct values of the column, in increasing order |
| CleanOrdinals.Frequent | preprocessing/clean_ordinals.py:31-32 | the values kept are exactly those above 0 that occur more than 100 times in the column, in increasing order |
| CleanOrdinals.Options | preprocessing/clean_ordinals.py:30-32 | a feature's options are exactly its answers above 0 that occur more than 100 times, strictly increasing |
| CleanOrdinals.OptionMap | preprocessing/clean_ordinals.py:28-33 | one option list per feature |
| CleanOrdinals.KeptMembers | preprocessing/clean_ordinals.py:37 | a feature is kept exactly when it has at least two options |
| CleanOrdinals.KeptIncreasing | preprocessing/clean_ordinals.py:37 | the kept features keep their order |
| CleanOrdinals.KeptPrefix | preprocessing/clean_ordinals.py:37 | the selection over fewer features is a prefix of the selection over more |
| CleanOrdinals.KeptHeaderNames | preprocessing/clean_ordinals.py:36-37 | the header filter and the column filter drop the same features, so the kept names are the names of the kept columns |
| CleanOrdinals.KeptGrows | preprocessing/clean_ordinals.py:37 | the number of kept features grows between two points exactly when a feature in between has two options or more |
| CleanOrdinals.RecodeAbsent | preprocessing/clean_ordinals.py:41 | an answer that is not an option of its feature (a rare one, or the missing answer) stays 0 |
| CleanOrdinals.RecodeTwo | preprocessing/clean_ordinals.py:44-46 | of two options the lower is recoded as -1 and the higher as 1 |
| CleanOrdinals.RecodeRank | preprocessing/clean_ordinals.py:47-49 | with three or more options the option of rank `j` is recoded as `j + 1` |
| CleanOrdinals.RecodeOrder | preprocessing/clean_ordinals.py:44-49 | recoding keeps the order of the options and never recodes an option as 0 |
| CleanOrdinals.GatherCols | preprocessing/clean_ordinals.py:37 | `all_data[:, cols]` has every row and, in column `k`, the cells of column `cols[k]` |
| CleanOrdinals.Recoded | preprocessing/clean_ordinals.py:41-49 | every cell of the new matrix is its answer recoded by the options of its feature |
| CleanOrdinals.MapLines | preprocessing/clean_ordinals.py:50 | map line `k` holds the `k`-th name, the option count and the options shifted back |
| CleanOrdinals.CleanedOk | preprocessing/clean_ordinals.py:36-50 | the script fails with IndexError exactly when a kept feature has no header name |
| CleanOrdinals.CleanedSaved | preprocessing/clean_ordinals.py:36-61 | the saved matrix has a row per data row and a column per kept feature, holding that feature's shifted answer recoded by its options |
| CleanOrdinals.CleanedMapLines | preprocessing/clean_ordinals.py:36-50 | map line `k` names the `k`-th kept feature with its option count, at least two, and its options shifted back |
| CleanOrdinals.ZeroCountBelow | preprocessing/clean_ordinals.py:54 | a column with a non-zero cell is not entirely missing |
| CleanOrdinals.NotMissingMembers | preprocessing/clean_ordinals.py:54-56 | a column passes the missing filter exactly when not all of its cells are 0 |
| CleanOrdinals.KeptColumnAnswered | preprocessing/clean_ordinals.py:41-49 | a kept feature's lowest option is some row's answer, and that row's recoded cell is not 0 |
| CleanOrdinals.MissingFilterKeepsAll | preprocessing/clean_ordinals.py:53-61 | the missing filter of lines 54-56 removes no column, so saving `new_all_data` on line 61 instead of the filtered matrix loses nothing |
| CleanOrdinals.ShiftAll | preprocessing/clean_ordinals.py:24 | in place, every cell of the array goes up by one |
| CleanOrdinals.FeatureOptions | preprocessing/clean_ordinals.py:30-32 | the options computed for feature `i` are `OptionMap`'s |
| CleanOrdinals.OptionMapOf | preprocessing/clean_ordinals.py:28-33 | the loop builds `OptionMap` |
| CleanOrdinals.MaskedSet | preprocessing/clean_ordinals.py:45 | `b[col == v, i] = c` sets column `i` to `c` in exactly the rows where `col` holds `v` and changes no other cell |
| CleanOrdinals.RecodeColumn | preprocessing/clean_ordinals.py:44-49 | column `i`, all zero before, ends holding every row's answer recoded by the options; the other columns are as they were |
| CleanOrdinals.RecodeAll | preprocessing/clean_ordinals.py:41-50 | the loop gives the recoded matrix and the map lines, or IndexError when the header has fewer names than kept features |
| CleanOrdinals.Clean | preprocessing/clean_ordinals.py:15-61 | shifts the data in place and returns `Cleaned` of the data as loaded: the saved matrix and the map lines, or the error |
| CreateAdirToddlerSchema.HasNumberDot | preprocessing/create_adir_toddler_schema.py:8-9 | a numbered line holds a '.', and the part before its first '.' has fewer than ten characters |
| CreateAdirToddlerSchema.NumberedIdShape | preprocessing/create_adir_toddler_schema.py:9-10 | a numbered line's id is "Q" and the number, zero-filled to three characters when it is shorter and has no sign |
| CreateAdirToddlerSchema.ClassifyAll | preprocessing/create_adir_toddler_schema.py:7-16 | one read line per line of the file, each classified on its own |
| CreateAdirToddlerSchema.LabelsSplit | preprocessing/create_adir_toddler_schema.py:5-16 | one label per line, and from line `i` on the labels are those the counter reached there gives the rest of the lines |
| CreateAdirToddlerSchema.OpeningLabel | preprocessing/create_adir_toddler_schema.py:8-12 | a numbered line is filed under its own id and stripped description |
| CreateAdirToddlerSchema.SubItemLabel | preprocessing/create_adir_toddler_schema.py:13-16 | the `j - i`-th line after the numbered line `i`, with only unnumbered lines between, is filed as that item's id, ".", and `j - i + 1` |
| CreateAdirToddlerSchema.AfterOpening | preprocessing/create_adir_toddler_schema.py:12 | a numbered line resets the numbering: the labels after it are those of a counter at that id and 2 |
| CreateAdirToddlerSchema.SubItems | preprocessing/create_adir_toddler_schema.py:14-15 | the `j`-th unnumbered line of a run numbered from `n` gets the number `n + j` |
| CreateAdirToddlerSchema.LabelsAfterOpening | preprocessing/create_adir_toddler_schema.py:13-16 | once an item has been opened no later line fails |
| CreateAdirToddlerSchema.LabelsFail | preprocessing/create_adir_toddler_schema.py:14 | the file fails with TypeError exactly when its first line is not numbered, `previous_q` then being None |
| CreateAdirToddlerSchema.CodedPropertyCodes | preprocessing/create_adir_toddler_schema.py:32-36 | the categorical companion's enum gives the codebook the missing codes 8 and 9 |
| CreateAdirToddlerSchema.FillAppend | preprocessing/create_adir_toddler_schema.py:7-36 | filing one more label after the others is one more `AddLabel` |
| CreateAdirToddlerSchema.AddLabelFrame | preprocessing/create_adir_toddler_schema.py:18-36 | a label adds exactly its own id, and for an ordinal its "a" companion, keeps every other property and keeps every property listed once |
| CreateAdirToddlerSchema.AddLabelWrites | preprocessing/create_adir_toddler_schema.py:18-36 | each key a label writes takes the interval, ordinal or categorical property the description calls for |
| CreateAdirToddlerSchema.FillFrame | preprocessing/create_adir_toddler_schema.py:7-36 | the schema's keys are the starting keys plus every key some label writes; a key that no label writes keeps its value |
| CreateAdirToddlerSchema.FillLast | preprocessing/create_adir_toddler_schema.py:19-36 | a key holds the property from the last label that writes it |
| CreateAdirToddlerSchema.NextLabel | preprocessing/create_adir_toddler_schema.py:8-16 | one line gives the label and the new counter of `Step`, or TypeError for an unnumbered line before any numbered one |
| CreateAdirToddlerSchema.ReadNumbered | preprocessing/create_adir_toddler_schema.py:9-11 | a numbered line's id and stripped description are the ones `Classify` reads |
| CreateAdirToddlerSchema.LabelsStep | preprocessing/create_adir_toddler_schema.py:7-16 | the loop's invariant moves one line on: a failing line fails the whole file with TypeError, and a good one adds its label |
| CreateAdirToddlerSchema.FileLabel | preprocessing/create_adir_toddler_schema.py:18-36 | the schema after one line is `AddLabel` of it |
| CreateAdirToddlerSchema.CreateToddlerSchema | preprocessing/create_adir_toddler_schema.py:3-44 | the script's output is `ToddlerSchema`: the properties with `additionalProperties` false and every key required, or TypeError |
| CreateAdirToddlerSchema.RequiredListsAll | preprocessing/create_adir_toddler_schema.py:38-44 | the required list names every property, each once |
| CreateInstrumentSchema.DigitRun | preprocessing/create_instrument_schema.py:27 | the index of the first non-digit, or the length when every character is a digit: the leading run holds only digits and the next character is not one |
| CreateInstrumentSchema.ItemIdSpec | preprocessing/create_instrument_schema.py:27-28 | the item id is "Q", the first `qheader` characters, the leading digit run zero-filled to at least two digits with its value unchanged, and the rest of the question |
| CreateInstrumentSchema.ItemIdCanonical | preprocessing/create_instrument_schema.py:27-28 | a question whose digit run already has two digits or more only gains the "Q" |
| CreateInstrumentSchema.ParseCodesOk | preprocessing/create_instrument_schema.py:34 | parsing the options fails with ValueError exactly when some option code is not an integer |
| CreateInstrumentSchema.ParseCodesValues | preprocessing/create_instrument_schema.py:34 | the parsed options are the integers of the option codes, one per word, in order |
| CreateInstrumentSchema.PartitionBounds | preprocessing/create_instrument_schema.py:35-36 | ordinal options are at most 6 and coded options above 6 |
| CreateInstrumentSchema.PartitionCounts | preprocessing/create_instrument_schema.py:35-36 | together the ordinal and coded options are the options, as a multiset |
| CreateInstrumentSchema.PartitionOrder | preprocessing/create_instrument_schema.py:35-36 | each of the two lists keeps the options' order |
| CreateInstrumentSchema.Ints | preprocessing/create_instrument_schema.py:41 | the options as JSON integers, one for one |
| CreateInstrumentSchema.CodedPropertyCodes | preprocessing/create_instrument_schema.py:54-59 | the categorical companion's enum gives the codebook exactly the coded options as missing codes |
| CreateInstrumentSchema.AddRowCases | preprocessing/create_instrument_schema.py:21-59 | a row either leaves the schema as it is or is a new item of the instrument whose properties are added |
| CreateInstrumentSchema.SkippedRows | preprocessing/create_instrument_schema.py:22-24 | a row of another instrument, or whose question has no ':', changes nothing |
| CreateInstrumentSchema.DuplicateRow | preprocessing/create_instrument_schema.py:30-31 | a row whose item id is already a property changes nothing |
| CreateInstrumentSchema.NewRow | preprocessing/create_instrument_schema.py:26-59 | a new item's row adds the item built from its id, its stripped description and its options |
| CreateInstrumentSchema.NewItem | preprocessing/create_instrument_schema.py:38-59 | ordinal options give an ordinal property with None and those options; otherwise a description naming a time gives an interval property, and any other description writes nothing under the id; coded options add a categorical companion |
| CreateInstrumentSchema.AddItemFrame | preprocessing/create_instrument_schema.py:38-59 | an item adds at most its id and its "a" companion, keeps every other property and the order of the earlier keys |
| CreateInstrumentSchema.AddItemListed | preprocessing/create_instrument_schema.py:38-59 | the key list stays one entry per property |
| CreateInstrumentSchema.AddRowKeeps | preprocessing/create_instrument_schema.py:21-59 | a row never changes an existing property whose name does not end in "a" |
| CreateInstrumentSchema.AddRowListed | preprocessing/create_instrument_schema.py:21-59 | a row keeps the earlier keys in order and keeps the key list one entry per property |
| CreateInstrumentSchema.BuildKeeps | preprocessing/create_instrument_schema.py:8-59 | the table never changes an existing property whose name does not end in "a", so "age" and "interview_date" keep their fixed definitions |
| CreateInstrumentSchema.BuildListed | preprocessing/create_instrument_schema.py:19-59 | after the whole table the key list is still one entry per property |
| CreateInstrumentSchema.BuildPrefix | preprocessing/create_instrument_schema.py:19-59 | the whole table keeps the earlier keys first, in order |
| CreateInstrumentSchema.CreateSchema | preprocessing/create_instrument_schema.py:8-66 | the script fails exactly when `Build` does, and otherwise prints the built properties with `additionalProperties` false and every key required |
| CreateInstrumentSchema.RequiredListsAll | preprocessing/create_instrument_schema.py:60-66 | the required list names every property once and starts with "age" and "interview_date" |
| CsvToJson.StripOne | preprocessing/csv-to-json.py:55 | a key ending in "_1" loses exactly that suffix; any other key is kept |
| CsvToJson.KeyPath | preprocessing/csv-to-json.py:55 | a header splits on ':' into a non-empty key path, one key per part |
| CsvToJson.KeyPathJoin | preprocessing/csv-to-json.py:55 | a header none of whose parts ends in "_1" is its key path joined with ':' |
| CsvToJson.HeaderPaths | preprocessing/csv-to-json.py:54-56 | one key path per header column, in order |
| CsvToJson.IndexColumns | preprocessing/csv-to-json.py:46-56 | the index maps column 0 to ("identifier",), the next `cols_to_remove` columns to the empty path and every later column to its header's key path |
| CsvToJson.DivergeOrPrefix | preprocessing/csv-to-json.py:67-76 | two key paths either part ways or one is a prefix of the other |
| CsvToJson.SetPathFits | preprocessing/csv-to-json.py:67-76 | storing a cell succeeds when the dicts along its parent path exist |
| CsvToJson.SetPathLands | preprocessing/csv-to-json.py:76 | after a successful store the value sits at the cell's key path |
| CsvToJson.SetPathOthers | preprocessing/csv-to-json.py:67-76 | a store changes nothing at a path that parts ways with the cell's |
| CsvToJson.SetPathKeepsDicts | preprocessing/csv-to-json.py:67-76 | a store keeps every dict path that does not run through the cell's key |
| CsvToJson.SetPathThroughValue | preprocessing/csv-to-json.py:70-71 | a store whose path runs through a stored value that is not a dict fails |
| CsvToJson.OpenPathHas | preprocessing/csv-to-json.py:57-60 | the corrected walk over a header's parent path leaves a dict at every step of it |
| CsvToJson.OpenPathKeeps | preprocessing/csv-to-json.py:57-60 | the corrected walk keeps the dict paths opened before |
| CsvToJson.OpenFresh | preprocessing/csv-to-json.py:57-60 | on an empty skeleton the corrected walk and the nested dicts of the path agree |
| CsvToJson.ResetAgrees | preprocessing/csv-to-json.py:57-60 | the walk as written and the corrected walk agree while the path's first key is new |
| CsvToJson.ResetSkeletonOfNext | preprocessing/csv-to-json.py:54-60 | one more header resets its parent path in the skeleton the walk as written builds |
| CsvToJson.SkeletonOfNext | preprocessing/csv-to-json.py:54-60 | one more header opens its parent path in the skeleton the corrected walk builds |
| CsvToJson.SkeletonHasAll | preprocessing/csv-to-json.py:54-60 | the skeleton the corrected walk builds has every header's parent path as nested dicts |
| CsvToJson.OpenPathKeys | preprocessing/csv-to-json.py:57-60 | the corrected walk adds at most the first key of the path to the top level |
| CsvToJson.SkeletonHeads | preprocessing/csv-to-json.py:54-60 | every top-level key of the corrected skeleton is the first key of some header's parent path |
| CsvToJson.WalksAgree | preprocessing/csv-to-json.py:54-60 | when no two headers' parent paths share a first key, the walk as written builds the same skeleton as the corrected walk |
| CsvToJson.ReadHeader | preprocessing/csv-to-json.py:46-60 | the loop over the header builds `Index` and `Skeleton`, the skeleton of the walk as written |
| CsvToJson.AddHeader | preprocessing/csv-to-json.py:55-60 | one header column extends the index by its key path and resets the dict under its parent path's first key, as the walk as written does |
| CsvToJson.CellInt | preprocessing/csv-to-json.py:72-73 | a cell holding an integer's decimal text is stored as that integer |
| CsvToJson.CellEmpty | preprocessing/csv-to-json.py:74-75 | an empty cell stays the empty string |
| CsvToJson.CellNone | preprocessing/csv-to-json.py:74-75 | a cell "None" stays the string "None" |
| CsvToJson.CellNotDict | preprocessing/csv-to-json.py:72-75 | no cell is stored as a dict |
| CsvToJson.Values | preprocessing/csv-to-json.py:66-75 | one stored value per cell |
| CsvToJson.StoreKeeps | preprocessing/csv-to-json.py:67-76 | a later cell whose path does not run through an earlier cell's keeps the earlier value |
| CsvToJson.ValueLands | preprocessing/csv-to-json.py:66-76 | a cell's value is present after the row when no later column writes at or below its path |
| CsvToJson.CellLands | preprocessing/csv-to-json.py:66-76 | in the filled row, column `j` holds its cell's value, unless a later column writes at or below its path |
| CsvToJson.FitsFills | preprocessing/csv-to-json.py:66-76 | on a skeleton that has every column's parent path the row's stores all succeed and keep those paths |
| CsvToJson.RowFits | preprocessing/csv-to-json.py:64-76 | a row no longer than the index, on a skeleton holding every column's parent path, with no stored path a prefix of a parent path, fills without an error |
| CsvToJson.IntendedRowFits | preprocessing/csv-to-json.py:54-76 | on the skeleton the corrected walk builds, every row no longer than the index fills without an error, provided no stored path is a prefix of another column's parent path |
| CsvToJson.CellsErr | preprocessing/csv-to-json.py:66-76 | a failed cell stops the row with its exception |
| CsvToJson.StoreCell | preprocessing/csv-to-json.py:67-76 | storing one cell is `Store` |
| CsvToJson.FillRow | preprocessing/csv-to-json.py:65-76 | a row is filled into a copy of the skeleton as `Row` states |
| CsvToJson.FillValues | preprocessing/csv-to-json.py:66-76 | the loop over the cells stores them in order, with IndexError for a cell past the index |
| CsvToJson.NullFillSpec | preprocessing/csv-to-json.py:79-83 | every schema feature of a present instrument is present afterwards; present values are kept, new ones are null, and top-level values that are not dicts are left alone |
| CsvToJson.NullFillKeys | preprocessing/csv-to-json.py:79-83 | the fill fails with KeyError exactly when some top-level dict has no schema definition, and otherwise keeps the top-level keys |
| CsvToJson.FillFeatures | preprocessing/csv-to-json.py:81-83 | one instrument's dict, completed with null for its missing features |
| CsvToJson.NullFillSample | preprocessing/csv-to-json.py:79-83 | the loop over the sample's keys computes `NullFill` |
| CsvToJson.RowSamplesAt | preprocessing/csv-to-json.py:64-86 | entry `j` is the outcome of row `j` |
| CsvToJson.CollectOk | preprocessing/csv-to-json.py:64-86 | the collection succeeds exactly when every row does |
| CsvToJson.CollectValues | preprocessing/csv-to-json.py:86 | then it holds one sample per row, in row order |
| CsvToJson.CollectStep | preprocessing/csv-to-json.py:86 | one more row appends its sample or stops with its exception |
| CsvToJson.CollectErr | preprocessing/csv-to-json.py:64-86 | the first exception stops the run |
| CsvToJson.SamplesPerRow | preprocessing/csv-to-json.py:64-86 | the run succeeds exactly when every row does, and then there is one sample per row, in row order, each filled and null-completed |
| CsvToJson.ConvertRow | preprocessing/csv-to-json.py:65-83 | one row gives `RowSample`: the row on a copy of the skeleton, null-filled |
| CsvToJson.ConvertRows | preprocessing/csv-to-json.py:64-90 | the loop over the data rows gives the collected samples, stopping at the first exception |
| CsvToJson.Append | preprocessing/csv-to-json.py:86 | one more row's sample is appended, or its exception ends the collection |
| CsvToJson.Convert | preprocessing/csv-to-json.py:46-90 | the whole conversion is `Samples` of the header and rows, on the skeleton the walk as written builds |
| CsvToJson.ResetLosesSibling | preprocessing/csv-to-json.py:57-60 | with the headers `A:B:x` then `A:y`, the walk as written leaves `{"A": {}}` and storing the first column raises KeyError, while the corrected walk stores it |
| FilterAutismKnownSex.Known | preprocessing/filter_autism_known_sex.py:33-39 | the indices of the label rows whose gender is known, each below the number of rows read |
| FilterAutismKnownSex.KnownMembers | preprocessing/filter_autism_known_sex.py:36-37 | a row is selected exactly when its gender cell is not "None"; the diagnosis plays no part |
| FilterAutismKnownSex.KnownIncreasing | preprocessing/filter_autism_known_sex.py:33-39 | the selection keeps the input order |
| FilterAutismKnownSex.KeptUpToOk | preprocessing/filter_autism_known_sex.py:33-37 | the loop fails exactly when the data file has fewer rows than the label file (StopIteration) or a label row has no gender cell (IndexError) |
| FilterAutismKnownSex.KeptUpToPairs | preprocessing/filter_autism_known_sex.py:33-39 | the kept label rows and data rows are the rows at the same indices, so each label row stays paired with its data row |
| FilterAutismKnownSex.KeptErr | preprocessing/filter_autism_known_sex.py:33-37 | a failed loop stays failed with the same exception |
| FilterAutismKnownSex.FilterOutput | preprocessing/filter_autism_known_sex.py:21-51 | each output file is its input header followed by the rows at the indices of the known-gender label rows, in input order |
| FilterAutismKnownSex.FilterKnownSex | preprocessing/filter_autism_known_sex.py:21-51 | the script's two outputs are `Filter`'s, or the exception it raises |
| Lists.Find | preprocessing/filter_autism_known_sex.py:28-29 | `list.index`: the first position holding the value, or ValueError exactly when it is absent |
| Lists.GatherAppend | preprocessing/filter_autism_known_sex.py:38-39 | selecting one more index appends that row |
| FilterOrdinalFeatures.ColNullsBound | preprocessing/filter_ordinal_features.py:29-33 | no column counts more missing cells than there are rows counted |
| FilterOrdinalFeatures.NullsUpToBound | preprocessing/filter_ordinal_features.py:31-34 | a row's missing count up to a cell is at most the cells counted and at most the header width |
| FilterOrdinalFeatures.RowNullsBound | preprocessing/filter_ordinal_features.py:35 | a row that fits the header has no more missing cells than the header has columns |
| FilterOrdinalFeatures.Descend | preprocessing/filter_ordinal_features.py:61-67 | a piece the current item holds is taken from it directly; a step from a value that is not a dict raises TypeError |
| FilterOrdinalFeatures.IsOrdinal | preprocessing/filter_ordinal_features.py:68 | a dict is ordinal exactly when its "data-type" is "ordinal" |
| FilterOrdinalFeatures.KeepNeedsColon | preprocessing/filter_ordinal_features.py:58 | a header without ':' is never kept |
| FilterOrdinalFeatures.KeepMeansOrdinal | preprocessing/filter_ordinal_features.py:58-69 | a kept header has a ':', its pieces resolve in the schema to an item whose data-type is "ordinal", and its instrument does not start with "ADOS_" |
| FilterOrdinalFeatures.Decisions | preprocessing/filter_ordinal_features.py:56-69 | one keep decision per header |
| FilterOrdinalFeatures.KeepUpToOk | preprocessing/filter_ordinal_features.py:56-69 | the selection fails exactly when the decision for some column under the missing threshold fails |
| FilterOrdinalFeatures.KeepUpToErr | preprocessing/filter_ordinal_features.py:56-69 | a failed selection stays failed with the same exception |
| FilterOrdinalFeatures.KeepUpToMembers | preprocessing/filter_ordinal_features.py:56-69 | a column is selected exactly when it is under the threshold and kept; the selection is increasing and in range |
| FilterOrdinalFeatures.FindAll | preprocessing/filter_ordinal_features.py:45-51 | the label columns are found exactly when every name is in the header, and then they are positions holding those names |
| FilterOrdinalFeatures.Project | preprocessing/filter_ordinal_features.py:82-83 | a written row picks the listed cells, each empty cell as "None", or fails with IndexError exactly when a listed column is past the row |
| FilterOrdinalFeatures.WriteUpToErr | preprocessing/filter_ordinal_features.py:80-83 | a failed write stays failed with the same exception |
| FilterOrdinalFeatures.WriteUpToOk | preprocessing/filter_ordinal_features.py:80-83 | when every row is under the threshold, writing succeeds exactly when every row holds all label and kept columns |
| FilterOrdinalFeatures.WriteUpToRows | preprocessing/filter_ordinal_features.py:80-83 | then each output file has one row per data row, the projection of that row |
| FilterOrdinalFeatures.ColumnCounts | preprocessing/filter_ordinal_features.py:26-33 | one missing count per header column |
| FilterOrdinalFeatures.RowCounts | preprocessing/filter_ordinal_features.py:35 | one missing count per data row |
| FilterOrdinalFeatures.KeptColumns | preprocessing/filter_ordinal_features.py:56-69 | the kept columns are increasing indices into the header |
| FilterOrdinalFeatures.FilterShape | preprocessing/filter_ordinal_features.py:24-83 | a successful run has a header whose label columns and identifier exist, and writes the label names, then the identifier and the kept columns' names, then the rows as `WriteUpTo` wrote them |
| FilterOrdinalFeatures.KeptColumnsMembers | preprocessing/filter_ordinal_features.py:56-69 | a column is kept exactly when its header is kept: the missing threshold of line 57 never drops a column |
| FilterOrdinalFeatures.ColumnCountsBound | preprocessing/filter_ordinal_features.py:37 | every column's missing fraction is at most 1 |
| FilterOrdinalFeatures.KeptBelowThreshold | preprocessing/filter_ordinal_features.py:57 | when every count is under the threshold, the selection is exactly the kept columns |
| FilterOrdinalFeatures.FilterRows | preprocessing/filter_ordinal_features.py:80-83 | the row threshold of line 81 never drops a row: each output file has one row per data row |
| FilterOrdinalFeatures.CountRow | preprocessing/filter_ordinal_features.py:30-35 | the counters of the row's missing columns go up by one, in place, and the row's count is returned; false where a missing cell lies past the header (IndexError) |
| FilterOrdinalFeatures.CountNulls | preprocessing/filter_ordinal_features.py:24-35 | the counting pass returns the column and row counts, or IndexError |
| FilterOrdinalFeatures.Lookup | preprocessing/filter_ordinal_features.py:59-67 | the walk over a header's pieces is `Resolve` |
| FilterOrdinalFeatures.KeepColumn | preprocessing/filter_ordinal_features.py:58-69 | the decision for column `i` is `Decisions`' entry |
| FilterOrdinalFeatures.SelectColumn | preprocessing/filter_ordinal_features.py:57-69 | one more column extends the selection as `KeepUpTo` does |
| FilterOrdinalFeatures.SelectColumns | preprocessing/filter_ordinal_features.py:53-69 | the loop over the header gives `KeepUpTo` |
| FilterOrdinalFeatures.WriteRows | preprocessing/filter_ordinal_features.py:80-83 | the loop over the data rows gives `WriteUpTo` |
| FilterOrdinalFeatures.FilterOrdinalWith | preprocessing/filter_ordinal_features.py:24-83 | the script with label columns `names` is `FilterOrdinal` |
| FilterOrdinalFeatures.FilterOrdinalFeatures | preprocessing/filter_ordinal_features.py:24-83 | the script with its own label columns is `FilterOrdinal` |
| KeepOnlyBothInstruments.KeepBothMembers | preprocessing/keep_only_both_instruments.py:10 | a sample is written exactly when it is an input sample holding both an ADIR and an ADOS block |
| KeepOnlyBothInstruments.KeepBothOrder | preprocessing/keep_only_both_instruments.py:10 | the written samples keep the input order and are no more than the input |
| PrepareGenderAnalysis.GenderCode | preprocessing/prepare_gender_analysis.py:29-32 | 1 exactly for "Male", -1 exactly for "Female", 0 for anything else |
| PrepareGenderAnalysis.DiagnosisCode | preprocessing/prepare_gender_analysis.py:34-37 | 1 exactly for Autism, PDD-NOS and Asperger, -1 exactly for Control, 0 for anything else |
| PrepareGenderAnalysis.CodesUpTo | preprocessing/prepare_gender_analysis.py:18-39 | `gender_diag` has one pair of codes per data row |
| PrepareGenderAnalysis.Where | preprocessing/prepare_gender_analysis.py:41 | `np.where` gives indices below the rows searched |
| PrepareGenderAnalysis.WhereMembers | preprocessing/prepare_gender_analysis.py:41 | a row is found exactly when it meets the condition: known gender, with a known or an unknown diagnosis |
| PrepareGenderAnalysis.WhereIncreasing | preprocessing/prepare_gender_analysis.py:41 | `np.where` gives its indices in increasing order |
| PrepareGenderAnalysis.PullMembers | preprocessing/prepare_gender_analysis.py:41 | a row is pulled exactly when its gender code is not 0 |
| PrepareGenderAnalysis.PullOrder | preprocessing/prepare_gender_analysis.py:41 | the rows with a known diagnosis come first, and within each group rows keep their order |
| PrepareGenderAnalysis.WhereSelected | preprocessing/prepare_gender_analysis.py:41 | the pulled list is the known-diagnosis rows followed by the unknown-diagnosis rows |
| PrepareGenderAnalysis.PullInLines | preprocessing/prepare_gender_analysis.py:41-43 | every pulled row has a label line |
| PrepareGenderAnalysis.CodesKnown | preprocessing/prepare_gender_analysis.py:27-37 | a row's gender code is not 0 exactly when its label line names Male or Female, and its diagnosis code exactly when the line names one of the four known diagnoses |
| PrepareGenderAnalysis.SelectionMembers | preprocessing/prepare_gender_analysis.py:27-41 | a row is pulled exactly when it has a label line and a data row and its gender is Male or Female |
| PrepareGenderAnalysis.SelectionOrder | preprocessing/prepare_gender_analysis.py:27-41 | individuals with a known diagnosis come before those with an unknown one, each group in file order |
| PrepareGenderAnalysis.SelectionCodes | preprocessing/prepare_gender_analysis.py:41-46 | the `k`-th written code pair is the codes of the `k`-th pulled label line |
| PrepareGenderAnalysis.PrepareOutput | preprocessing/prepare_gender_analysis.py:13-46 | a successful run writes the label header then the pulled label lines, the pulled data rows and the pulled code pairs, all at the same indices |
| PrepareGenderAnalysis.EncodeLine | preprocessing/prepare_gender_analysis.py:28-37 | one label line writes its codes into row `i` of `gender_diag`, in place, and nothing else; false where the line lacks a cell or a non-zero code falls past the matrix (IndexError) |
| PrepareGenderAnalysis.EncodeLines | preprocessing/prepare_gender_analysis.py:27-39 | the loop over the label lines leaves `gender_diag` as `CodesUpTo` and keeps every line, or reports the IndexError |
| PrepareGenderAnalysis.WriteLabels | preprocessing/prepare_gender_analysis.py:26-43 | the label file is the header line followed by the pulled label lines |
| PrepareGenderAnalysis.PrepareGender | preprocessing/prepare_gender_analysis.py:13-46 | the script's three outputs are `Prepare`'s, or the exception it raises |
| RemoveEmpty.PruneAll | preprocessing/remove_empty.py:11-24 | every sample is pruned, one for one |
| RemoveEmpty.PruneFields | preprocessing/remove_empty.py:11-24 | a field survives exactly when it is not an empty instrument, and then keeps its value |
| RemoveEmpty.PruneKeepsNonDicts | preprocessing/remove_empty.py:14 | a field that is not a dict is never deleted |
| RemoveEmpty.NoItemsIsEmpty | preprocessing/remove_empty.py:16-18 | a block with no key starting with 'Q' is deleted, whatever its other fields hold |
| RemoveEmpty.AnsweredSurvives | preprocessing/remove_empty.py:16-18 | a block with one answered 'Q' item survives unchanged |
| RemoveEmpty.PruneIdempotent | preprocessing/remove_empty.py:11-24 | pruning a pruned sample changes nothing |
| RemoveEmpty.KeepNonEmptyMembers | preprocessing/remove_empty.py:27-35 | a sample survives exactly when it still holds an instrument other than Medical History |
| RemoveEmpty.KeepNonEmptyOrder | preprocessing/remove_empty.py:27-35 | the surviving samples keep their order |
| RemoveEmpty.PrunedSurvivors | preprocessing/remove_empty.py:11-35 | every output sample holds an instrument, other than Medical History, with an answered item |
| RemoveEmpty.KeepNonEmptyOfPruned | preprocessing/remove_empty.py:27-35 | dropping samples from a pruned list leaves the survivors pruned |
| RemoveEmpty.PrunedIdempotent | preprocessing/remove_empty.py:11-35 | running the whole pass twice gives what one run gives |
| RemoveEmpty.KeepNonEmptyTwice | preprocessing/remove_empty.py:27-35 | the sample filter is idempotent |
| RemoveEmpty.EmptyIndicesSpec | preprocessing/remove_empty.py:12-18 | the indices listed for an instrument are increasing and are exactly the samples where it is empty |
| RemoveEmpty.EmptyListsSpec | preprocessing/remove_empty.py:11-18 | the `defaultdict` holds a list exactly for the instruments that are empty somewhere, and that list is their indices |
| RemoveEmpty.AddEmptyStep | preprocessing/remove_empty.py:13-18 | one more field appends the sample's index to that field's list exactly when it is an empty instrument |
| RemoveEmpty.EmptyListsPrune | preprocessing/remove_empty.py:21-23 | deleting the listed instruments from a sample is pruning it |
| RemoveEmpty.EmptyListsDeletable | preprocessing/remove_empty.py:21-23 | every listed deletion names a field the sample holds, so no `del` raises KeyError |
| RemoveEmpty.KeepAtFilter | preprocessing/remove_empty.py:27-35 | deleting exactly the samples without an instrument is the filter |
| RemoveEmpty.DropOne | preprocessing/remove_empty.py:34-35 | deleting one more index, going from the back, keeps the untouched front and the filtered back |
| RemoveEmpty.DropEmptyIsFilter | preprocessing/remove_empty.py:26-35 | the deletions of lines 34-35 leave exactly the samples that hold an instrument |
| RemoveEmpty.InstrumentsPruned | preprocessing/remove_empty.py:20-24 | after the deletions every sample is its pruned form |
| RemoveEmpty.SampleList.FindEmptyInstruments | preprocessing/remove_empty.py:11-18 | the first loop builds `EmptyLists` |
| RemoveEmpty.SampleList.RemoveInstrument | preprocessing/remove_empty.py:22-23 | in place, the instrument is deleted from exactly the listed samples and every other sample is as it was |
| RemoveEmpty.SampleList.RemoveInstruments | preprocessing/remove_empty.py:21-24 | in place, every sample loses exactly its listed instruments |
| RemoveEmpty.SampleList.FindEmptySamples | preprocessing/remove_empty.py:27-31 | the indices found are increasing and are exactly the samples without an instrument |
| RemoveEmpty.SampleList.RemoveSamples | preprocessing/remove_empty.py:34-35 | deleting in reverse order, in place, removes exactly the listed samples and keeps the rest in order |
| RemoveEmpty.SampleList.PruneInstruments | preprocessing/remove_empty.py:10-24 | in place, every sample becomes its pruned form |
| RemoveEmpty.SampleList.DropEmptySamples | preprocessing/remove_empty.py:26-36 | in place, the list becomes the samples that hold an instrument |
| RemoveEmpty.SampleList.PruneSamples | preprocessing/remove_empty.py:10-36 | the whole pass, in place: the pruned samples that still hold an instrument |
| SchemaDict.PutListed | preprocessing/create_instrument_schema.py:30-59 | adding a property keeps the key list one entry per property and keeps the earlier keys in order |
| SchemaDict.OutputRequired | preprocessing/create_instrument_schema.py:60-66 | the required list is the keys in order, names exactly the properties, and names none twice |
| Subsequences.SubsequenceLength | preprocessing/keep_only_both_instruments.py:10 | a subsequence is no longer than the sequence |
| Strings.Contains | preprocessing/create_adir_toddler_schema.py:18 | Python's `in` on strings: true exactly when the substring occurs somewhere |
| Strings.ContainsTransitive | preprocessing/assign_diagnosis.py:269 | a string containing a string that contains a substring contains that substring |
| Strings.IndexOf | preprocessing/create_instrument_schema.py:34 | `str.find` of a character: its first position, or none exactly when it is absent |
| Strings.Lower | preprocessing/assign_diagnosis.py:260 | `str.lower` maps every character and keeps the length |
| Strings.Strip | preprocessing/create_adir_toddler_schema.py:11 | `str.strip`: a slice of the string with no white space at either end |
| Strings.StripCutsSpace | preprocessing/create_adir_toddler_schema.py:11 | `str.strip` cuts off only white space: everything before and after the stripped slice is white space |
| Strings.JoinSplit | preprocessing/csv-to-json.py:55 | joining the pieces of `str.split` with the separator gives the string back |
| Strings.SplitPiecesFree | preprocessing/csv-to-json.py:55 | no piece of `str.split` holds the separator |
| Strings.SplitOnce | preprocessing/create_adir_toddler_schema.py:9 | `split(c, maxsplit=1)`: the text before the first `c` and the text after it |
| Strings.SplitWhitespaceWords | preprocessing/create_instrument_schema.py:34 | `str.split()` gives non-empty words with no white space |
| Strings.ParseIntToString | preprocessing/csv-to-json.py:73 | `int` of an integer's decimal text is that integer |
| Strings.ParseNotNumber | preprocessing/csv-to-json.py:72-75 | a text starting with neither a digit nor a sign, with no surrounding white space, is not an integer |
| Strings.ZFill | preprocessing/create_instrument_schema.py:28 | `str.zfill`: a shorter unsigned text gets leading zeros up to the width, a longer one is unchanged |
| Strings.ZFillValue | preprocessing/create_instrument_schema.py:28 | zero-filling a run of digits keeps it digits and keeps its value |
| Strings.LessTrichotomy | preprocessing/aggregate_phenotype.py:1230 | Python's string order is total: two strings are equal or one is below the other |
| Strings.LessTransitive | preprocessing/aggregate_phenotype.py:1230 | the string order is transitive |
| Strings.PairLessTrichotomy | preprocessing/aggregate_phenotype.py:1230 | the order on (dataset, identifier) keys is total |
| Strings.PairLessTransitive | preprocessing/aggregate_phenotype.py:1230 | the order on (dataset, identifier) keys is transitive |

## Left out

- Per-source column tables and directory discovery (`aggregate_phenotype.py:278-1215`): these are adapters. The fold takes each row already cut into the fields those adapters return (`RowFields`), so the model begins where the adapters end.
- File reading and writing, `sys.argv`, `json.load`/`json.dump`, the CSV writers, and every `print` and `Counter` printout: I/O. Inputs are given as values (rows, lines, matrices, dicts) and outputs are returned as values.
- CSV quoting and dialects: rows are given already split into cells.
- `jsonschema.validate` (`aggregate_phenotype.py:36-37, 270`, `aggregate_ados.py:94`, `csv-to-json.py:85`): a foreign library. Schemas enter as constant values, meaning their enums and data-types.
- `create_new_instrument`, imported by `aggregate_ados.py:7`, is not part of this model. The ADOS block starts from a given template map whose keys are the ADOS schema keys, all None.
- Where `clinical_diagnosis_raw` comes from: no modelled script sets it, so it is an input field of the sample.
- `AggregatePhenotype.Interpret`: float parsing is not modelled. An answer is accepted when Python's `int()` accepts it. So `int(round(float(x), 0))` on a text such as "2.0" or "1e1", and round-half-to-even, are not covered. Such an answer is a ValueError in the model.
- The float age conversions (`12*float(...)`) in the per-source adapters: they are part of the adapters left out above.
- `Strings.ParseInt`: Python's `int()` also accepts underscores between digits and non-ASCII digits. The model accepts ASCII digits only. In the same way, `Strings.Lower` lower-cases ASCII letters only.
- `FilterOrdinalFeatures.FilterOrdinal`: the null fractions of `filter_ordinal_features.py:37-38` are compared as integer counts, which gives the same decisions. The ZeroDivisionError on an empty data file is kept.
- `CsvToJson.ReadHeader`: `cols_to_remove` is a natural number. A negative value, which Python would accept as a slice bound, is not modelled.
- `CsvToJson.OpenPathKeeps`: holds for the corrected walk only. The walk as written can drop a dict an earlier header opened (`ResetLosesSibling`). `WalksAgree` states when the two walks build the same skeleton.
- `CsvToJson.SkeletonOfNext`: describes the corrected skeleton, which `IntendedSkeleton` builds. The skeleton `Convert` uses is the one the walk as written builds, and `ResetSkeletonOfNext` states its step.
- `CsvToJson.SkeletonHasAll`: holds for the corrected skeleton only. On the skeleton the walk as written builds, a header's parent path can be missing (`ResetLosesSibling`).
- Deep copies and aliasing: the nested dicts in `csv-to-json.py` (`entry_place`, `copy.deepcopy`) and in the sample dicts are modelled as values. A store into a shared sub-dict therefore cannot be observed through another reference.
- `AggregateAdos.RemapBlock`: the source visits a module block's keys in dict order. The model allows any order. For a clash key, the value depends on that order. A clash key is a key copied under its own name that is also the mapped name of another key of the block. For those keys the model states only that the key is present. Every other key gets its exact value.
- `AssignDiagnosis.Sample.AssignClinicalDiagnosis`: a text that matches no rule is printed and the field is left as it was. The model leaves the field as it was and drops the print.
- `AssignDiagnosis.Sample.AssignAllDiagnoses`: it diagnoses one sample. The loop over all samples in `assign_diagnosis.py:303-305` only applies it to each sample in turn and has no member of its own.
- `FilterOrdinalFeatures.Descend`: a piece found neither in the item nor in its `properties` makes the source print "Problem!" and go on from the same item. The model goes on from the same item and drops the print.
- `prepare_gender_analysis.py` and `clean_ordinals.py` read their matrices with `numpy.loadtxt`. The matrix is given as integer rows of one width. The one-row and one-column shapes that `loadtxt` collapses are not modelled. Neither are fixed-width integer overflow and the text form numpy gives to its numbers.
- `CleanOrdinals.Cleaned`: the header is the first line split at commas, and its last piece keeps the line break, as in the source.
- Partial output written before an exception stops a script: a failing run is modelled as an `Err` result with no output.
- The `analysis/` scripts and `preprocessing/test.py` are not part of this model: they do random train/test masking, file conversion and a schema smoke test.
- SRS scoring: no shown script scores the SRS. Its columns are only carried as labels.

## Findings

| source | as written | input that shows it | evidently intended | confidence | as-written member | corrected member |
|---|---|---|---|---|---|---|
| preprocessing/aggregate_phenotype.py:188-194 | the ethnicity and family mismatch reports are gated on `race is not None`, not on the row's own ethnicity or family | a sample stored with ethnicity "Hispanic", then a row whose race is None and whose ethnicity is "Not Hispanic" (not reported); or a row with race "White" and ethnicity None (reports a mismatch against None) | each report gated on the row's own value, as for gender and race | not executed | AggregatePhenotype.ConflictsAsWrittenMisreports | AggregatePhenotype.ConflictsAreKeptValues |
| preprocessing/csv-to-json.py:57-60 | the skeleton walk assigns `entry_place[key] = {}` at every step, so a later header resets a nested dict opened by an earlier one | headers `A:B:x` then `A:y`: the skeleton becomes `{"A": {}}` and storing the first column raises KeyError | open each dict only when it is missing, keeping dicts already opened | not executed | CsvToJson.ResetLosesSibling | CsvToJson.IntendedRowFits |
