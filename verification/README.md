# TRLOG in Dafny

TRLOG is a binary trace format for hardware simulations and software runs. Its library is a set of
stateful codecs, a compiler and stack machine for derived signals, a dependency graph with lazy
evaluation, an interning hash table and a recorder that a simulator drives. Each of these has a simple
meaning (a list of changes, records, events or tree nodes) and a complicated fast form. This project
models the fast forms and proves that they keep the meaning.

Byte formats are given twice: as a pair of functions, encoder and parser, and as the imperative methods
of the library, which are proved to compute those functions. A parser takes the whole remaining input
and returns the value and what is left, so every round trip holds whatever bytes follow. Objects whose
methods update fields are classes, and their methods state the whole new state. The theorems about what
the formats and state machines are for are lemmas about the functions.

A round trip says nothing about an operation that writer and reader share, so what they share is told a second
time, apart from it: the running state of delta coding by the list of records, the call window by the frames
written out, the operators by the circuit an expression is, the recorder by the calls made to it, the forms of
values and fields bit by bit or as the format description tabulates them, and the tags and orders of the formats
by the golden files.

| modules | what they model |
|---|---|
| `Bits`, `BitLaws`, `Bytes`, `Varint`, `Fields`, `FieldForms`, `Lists`, `Sorting` | numbers as bits and bytes, LEB128 in Python and C, typed fields, ordered lists |
| `TxnRecords`, `TxnColumns`, `TxnBlock`, `TxnDeltas` | transaction blocks: six record kinds, delta coding, row and column layout, and the documented bytes of both |
| `StringTables` | the intern table: dictionary and list in Python, linear probing in C |
| `CallReturn`, `Numerals`, `CallTree` | the call/return stream, its predictors and window, and the call tree |
| `Derived`, `Circuits`, `Sweep`, `Deps`, `Materializer`, `DerivedRead`, `WriterGraphs` | derived signals and the circuits they mean, the dependency graphs and reading through them |
| `VcValues`, `VcCodes`, `VcWave`, `VcBlock`, `VcStore`, `VcPayload`, `VcSizes`, `VcDataBlocks`, `VcBuild`, `VcOptions`, `VcCodec`, `VcNative`, `VcNativeEntries` | value-change blocks in Python, and the native wave coders: runs for wide two-state signals, entries for all others |
| `ByteSplit`, `BytesplitBlocks` | byte planes and the block built on them |
| `TraceRead`, `TraceMeaning`, `TraceWrite` | a trace file as blocks and an index: flushing, scanning, indexed reading |
| `TypedAttrs`, `Hierarchy`, `HierarchyBlocks` | the hierarchy builder, its printer and its tag parser |
| `Vpi`, `VpiRuns`, `VpiStory`, `VpiFile`, `VpiTimes`, `VpiNative`, `VpiRecorder` | the recorder behind the simulator callbacks, as a state machine over all its calls; what it records and files, told by the calls alone; whether that can be read |
| `Golden`, `GoldenCalls`, `GoldenWaves`, `GoldenPlanes` | bytes of the library's golden files, which the encoders reproduce |

## Abstractions

* Compressors are inverse pairs (`Lossless`): unpacking what was packed gives it back. Shared waves are
  keyed by their bytes instead of a digest of them. Real numbers are eight opaque bytes, and text is its
  UTF-8 bytes.
* A file is a sequence of blocks with a flag word and a payload, beside an index of entries.
* Signal values read from the simulator, clocks and compressors are parameters.

## Where the code is less than one expects

These are properties one would expect that do not hold for every input. The code is modelled as it is;
the exact condition is proved in each case.

* **Column layout.** A reader takes one value from every attribute column for every full transaction of
  a schema, also when that transaction did not carry the field. Column blocks read back exactly when all
  full transactions are uniform (`TxnBlock.ColumnPayloadRoundTrip`): each carries precisely those fields
  of its schema that any full transaction of the block carries, once and in order. Columns are keyed by
  field index only, so transactions of different types are bound to each other. The automatic choice of
  a layout does not look at this, so it can change what is read (`TxnBlock.LayoutIndependence`).
* **Many-bit four-state values** lose Z, as the code's own comment says, and also any mix of X and digits
  (`VcValues.FourExact`). An *initial* value of a one-bit four-state signal is packed like a many-bit one,
  so Z comes back as a list holding X (`VcDataBlocks.InitExact`, `VcDataBlocks.InitialZIsLost`).
* **Open-ended indexed reads** stand 2^63 in for a missing end. Such a read equals the scan exactly when
  no block that starts later holds a change of the signal at or after the read's start
  (`TraceRead.OpenEndedExactly`).
* **Call blocks** come back exactly when each event can be carried (`CallReturn.BlockRoundTrip`): no call
  has an argument of type NONE; times, and integers of calls that are written out, are within 64 bits of
  those before them (of the same function's previous call, for integers); returns have 64 bits, and
  function ids that are written out are below 2^70. NONE arguments come back missing, and once such a call
  has been repeated the reader takes later integers of that function against the wrong argument, or fails
  (`CallReturn.NothingIsDropped`, `CallReturn.SevenReadsAsFour`).
* **Two changes of one signal at one time** get into one block exactly when some drain finds the signal
  marked while a change of it is already held at the drain's time (`VpiTimes.SignalDistinctExactly`,
  `VpiTimes.TwiceInOneStep`). The C encoder writes such a wave. The C reader stops at the second of the two
  with an error (`VcNative.NativeRoundTrip`, `VcNativeEntries.EntriesRoundTrip`), except for real and string
  signals, whose headers do not shift the distance: so each signal's waves can be read exactly when it is
  of those or this never happened to it (`VpiNative.RecordingReadsExactly`). The Python encoder raises
  (`VcCodec.VcDataBlock.EncodePayload`).
* **Two-state values of more than eight bytes.** The C encoder takes the first eight bytes of such a value
  and its reader never hands out more than eight, so of these only zero survives
  (`VcNative.OriginalsComeBack`, `VcNative.WideValueIsLost`). Python keeps the whole number, and the two
  waves differ exactly then (`VcNative.SameBytesAsPython`).
* **Words given to wide four-state and nine-state signals in C** keep one bit
  (`VcNativeEntries.WideValueExactly`).
* **Values of 2^70 and above** are written but rejected on reading (`Varint.URoundTrip`).

## Model

| member | source | states |
|---|---|---|
| Varint.URoundTrip | python/src/trlog/_codec.py:21-58 | A natural number reads back from its encoding, whatever bytes follow, exactly when it is below 2^70; every larger one is rejected as too large |
| Varint.SRoundTrip | python/src/trlog/_codec.py:61-74 | The zigzag form reads back, whatever follows, for the 64-bit signed integers and for no others |
| Varint.UInjective | python/src/trlog/_codec.py:21-58 | Encodings are prefix-free: if two encodings with arbitrary tails give the same bytes, both the values and the tails are equal |
| Varint.WordLength | c/src/varint.c:12-24 | A 64-bit value takes at most ten bytes, the size of the scratch array |
| Varint.EncodeUvarint | python/src/trlog/_codec.py:21-35 | The loop yields the specified LEB128 bytes, and raises exactly on negative numbers |
| Varint.DecodeUvarint | python/src/trlog/_codec.py:37-58 | At any offset of any buffer the loop gives the specified value or fault, and ends with the offset just past the encoding |
| Varint.EncodeSvarint | python/src/trlog/_codec.py:61-66 | The signed writer gives the specified bytes |
| Varint.DecodeSvarint | python/src/trlog/_codec.py:69-74 | The signed reader gives the specified integer or fault and the offset just past it |
| Varint.UvarintSize | c/src/varint.c:3-10 | The size that is counted is the length of the encoding, and at most ten |
| Varint.BufAppendUvarint | c/src/varint.c:12-24 | The C writer appends exactly the bytes the Python writer gives, for every 64-bit value |
| Varint.BufAppendSvarint | c/src/varint.c:26-29 | The C writer's bit tricks append exactly the Python bytes over all signed 64-bit integers |
| Varint.DecodeUvarintC | c/src/varint.c:31-47 | The C reader succeeds exactly when the Python reader does, ends at the same place, and gives the Python value cut to 64 bits |
| Varint.ZigzagAgree | c/src/varint.c:26-57 | C and Python zigzag are the same maps between signed and unsigned 64-bit integers, and each is onto |
| Fields.FieldRoundTrip | python/src/trlog/_codec.py:96-164 | Every value that fits its field type reads back from the field's bytes, whatever follows |
| FieldForms.FixedForms | docs/guide/format.md:307-318 | Fixed-width values take the tabulated number of bytes, numbers as little-endian two's complement |
| FieldForms.VariedForms | python/src/trlog/_codec.py:96-127 | Enumerations are varints, texts and bytes have their length in front, bit vectors their width and then the fewest bytes, highest first |
| FieldForms.TypeCodes | python/src/trlog/_types.py:66-82 | The wire codes of the field types |
| FieldForms.PastSchema | python/src/trlog/_txn_data.py:327-347 | A field past the end of its schema is an unsigned 64-bit number |
| FieldForms.FixedOrEnum | python/src/trlog/_types.py:193-198 | The types that let a block choose columns by itself are those of fixed width, and enumerations |
| TxnRecords.RecRoundTrip | python/src/trlog/_txn_data.py:256-325 | One row of any of the six kinds, with or without delta coding, reads back from equal delta states as the record that was written, whatever rows follow |
| TxnDeltas.OneMore | python/src/trlog/_txn_data.py:233-254 | The running state before a record is the id of the record before, 0 at first, and the time of the latest record that has one: the end of a full or ended record, the start of a begun one, else the start of the block |
| TxnDeltas.RowsAreDocumented | docs/guide/format.md:156-222 | Every row is its documented fields in order, the id relative to the record before and the time to the latest one left, or eight bytes each; in delta coding an end is a duration |
| TxnDeltas.PayloadIsDocumented | python/src/trlog/_txn_data.py:219-231 | So is a whole row payload |
| TxnDeltas.ColumnsAreCells | docs/guide/format.md:275-318 | Every column of a block is, record after record, what the documented table says of that column's number, relative to the records before in the same way |
| TxnDeltas.TagColumn | docs/guide/format.md:275-292 | The tag column holds the documented tag of every record |
| TxnDeltas.ColumnOrder | python/src/trlog/_txn_data.py:465-498 | The order of the columns: tags, ids, streams, types, times and so on as listed, then the fields' columns by rising number |
| TxnDeltas.RowsReadDeltas | python/src/trlog/_txn_data.py:708-742 | On any payload each row is read relative to the records read before it |
| TxnDeltas.TagsReadDeltas | python/src/trlog/_txn_data.py:515-687 | So is each record of a column payload |
| TxnColumns.RecReads | python/src/trlog/_txn_data.py:515-687 | With all cursors just before a record's bytes, reading by its tag gives the record and moves every column's cursor past exactly its bytes |
| TxnColumns.ReadCarries | python/src/trlog/_txn_data.py:689-702 | Whatever the columns hold, a full record that is read carries exactly the schema fields that have a column |
| TxnBlock.RowPayloadRoundTrip | python/src/trlog/_txn_data.py:219-231 | A row payload reads back as its time range and its records, and nothing is left over |
| TxnBlock.ColumnPayloadRoundTrip | python/src/trlog/_txn_data.py:349-504 | A column payload reads back as its time range and its records if and only if its full records are uniform |
| TxnBlock.CompleteIsUniform | python/src/trlog/_txn_data.py:506-513 | Full records that carry every field of their schemas in order are uniform |
| TxnBlock.LayoutIndependence | python/src/trlog/_txn_data.py:139-213 | Whatever layout, delta coding and compression a block was written with, the reader gets the same records; in column layout, if and only if they are uniform |
| TxnBlock.IncompleteFullMixesUp | python/src/trlog/_txn_data.py:689-702 | A full record without its field is read with the value of the next record that has it |
| TxnBlock.TxnDataBlock.Write | python/src/trlog/_txn_data.py:60-120 | A builder call appends its record and moves the end of the block when the record ends later |
| TxnBlock.TxnDataBlock.EncodePayload | python/src/trlog/_txn_data.py:219-231 | The row loop, with its running delta state, yields the specified row payload |
| TxnBlock.TxnDataBlock.EncodePayloadColumn | python/src/trlog/_txn_data.py:349-504 | Appending record by record to the column buffers gives the specified columns, in the fixed order and then by rising field index |
| TxnBlock.TxnDataBlock.ShouldUseColumn | python/src/trlog/_txn_data.py:122-137 | Columns are preferred exactly for at least 32 records none of whose schemas has a field of varying width |
| TxnBlock.TxnDataBlock.EncodeBlock | python/src/trlog/_txn_data.py:139-179 | The payload is that of the layout, coding and compressor that the flags name, and each layout option sets the flags it promises |
| TxnBlock.TxnDataBlock.DecodePayload | python/src/trlog/_txn_data.py:708-727 | The row loop gives the specified records or fault, and takes over the time range |
| TxnBlock.TxnDataBlock.DecodePayloadColumn | python/src/trlog/_txn_data.py:515-687 | The cursor loop gives the specified records or fault, and takes over the time range |
| TxnBlock.TxnDataBlock.ReadBlock | python/src/trlog/_txn_data.py:192-213 | Whatever the flags say was done is undone |
| StringTables.InternLaws | python/src/trlog/_string_table.py:26-33 | Interning gives a string an id that looks it up again, a new string gets count + 1, equal strings get equal ids, different ones different ids, and old ids never change |
| StringTables.StringTable.Intern | python/src/trlog/_string_table.py:26-33 | Dictionary and list stay each other's inverse, and the id and the new contents are the specified ones |
| StringTables.StringTable.LookupId | python/src/trlog/_string_table.py:35-40 | Gives the string of an id, the empty string for id 0, or none past the end |
| StringTables.EntriesRoundTrip | python/src/trlog/_string_table.py:84-108 | The entries read back in order, whatever follows |
| StringTables.FreeSlotExists | c/src/string_table.c:64-100 | With fewer keys than slots there is a free slot, so every probe stops |
| StringTables.ProbeFinds | c/src/string_table.c:64-107 | The probe for a stored key passes only taken slots and ends on its own |
| StringTables.FreeMeansAbsent | c/src/string_table.c:64-100 | A probe that meets a free slot has shown that its key is not stored |
| StringTables.FillKeeps | c/src/string_table.c:64-100 | Filling the first free slot of a new key's probe keeps every stored key reachable |
| StringTables.EntriesOf | c/src/string_table.c:3-27 | A walk over the slots meets every key exactly once |
| StringTables.NativeTable.Probe | c/src/string_table.c:64-100 | Masked steps from the masked hash end at the key with its id, or at a free slot when and only when the key is absent |
| StringTables.NativeTable.Reinsert | c/src/string_table.c:3-27 | Putting back an old entry adds its key and keeps the others reachable |
| StringTables.NativeTable.Rehash | c/src/string_table.c:3-27 | A larger table, again of a power of two, holds the same keys with the same ids, all of them reachable |
| StringTables.NativeTable.Intern | c/src/string_table.c:64-100 | The hash table gives the same id and the same new contents as the dictionary-and-list table, also across a rehash |
| StringTables.NativeTable.LookupId | c/src/string_table.c:102-107 | An id gives its string, and 0 or an id past the end gives none |
| StringTables.NativeTable.EncodePayload | c/src/string_table.c:109-146 | The entry loop writes the bytes the Python table writes |
| StringTables.NativeTable.DecodePayload | c/src/string_table.c:148-208 | Reading, with counts and lengths cut to 64 bits, succeeds exactly when no entry runs past the end, and interns the entries in order |
| StringTables.AfterAllDistinct | c/src/string_table.c:181-205 | Interning distinct new strings in order appends them, so the i-th gets the i-th next id |
| StringTables.TableRoundTrip | c/src/string_table.c:109-205 | A table written out and read into a fresh one gives every string its old id, in both implementations (in C for strings without NUL) |
| CallReturn.ArgsRoundTrip | python/src/trlog/ext/callreturn.py:105-129 | Arguments whose integers are within 64 bits of their predictors read back, but for those of type NONE; the new predictors agree, and texts resolve in any later string table |
| CallReturn.FarIntegerMisread | python/src/trlog/ext/callreturn.py:105-129 | Without NONE arguments, an integer further from its predictor comes back as another one, or the arguments do not come back at all |
| CallReturn.FewerArgs | python/src/trlog/ext/callreturn.py:117-129 | On any bytes and against any predictor, a reader gets fewer arguments than a signature with a NONE type has |
| CallReturn.NothingIsDropped | python/src/trlog/ext/callreturn.py:314-353 | From writer to reader: of calls (None, a) with or without a real, twice, and then (None, b), the first two come back without the None, and the third is read as the real cut to an integer plus b - a, or fails when there is none |
| CallReturn.SevenReadsAsFour | python/src/trlog/ext/callreturn.py:314-353 | (None, 5, 2.0), (None, 5, 2.0), (None, 7, 2.0) comes back with a 4 for the 7 |
| Numerals.IntegralCuts | python/src/trlog/ext/callreturn.py:117-129 | A double taken as a predictor is cut towards zero; infinities and NaN fail |
| Numerals.DecimalReads | python/src/trlog/ext/callreturn.py:117-129 | A text of decimal digits taken as a predictor, signed or not, is the number it says |
| Numerals.OthersRaise | python/src/trlog/ext/callreturn.py:117-129 | Any other text fails |
| CallReturn.RepetitionShortens | python/src/trlog/ext/callreturn.py:328-333 | A back-reference makes the shortened list the reader's predictor while the writer's is the full one |
| CallReturn.PushKeeps | python/src/trlog/ext/callreturn.py:269-272 | Pushing a new frame keeps the window free of duplicates and within its cap |
| CallReturn.PushIsLastOnes | python/src/trlog/ext/callreturn.py:269-272 | Pushing onto the last frames of a list gives the last frames of the longer list |
| CallReturn.FoundWhileRecent | python/src/trlog/ext/callreturn.py:262-272 | A frame is found exactly while it is among the last frames written out in full, as many as the window has room for, and at its distance from the last |
| CallReturn.EventKeeps | python/src/trlog/ext/callreturn.py:222-260 | Every event keeps predictors well formed and the window duplicate-free and within its cap, and only extends the string table |
| CallReturn.DecEventKeeps | python/src/trlog/ext/callreturn.py:314-353 | Whatever bytes are read, predictors and frames of every function without NONE arguments keep the shape its signature gives them |
| CallReturn.EventLockstep | python/src/trlog/ext/callreturn.py:222-260 | From equal states the reader gets the event and goes to the writer's next state if the event fits; otherwise it gets another event, or none |
| CallReturn.RunLockstep | python/src/trlog/ext/callreturn.py:314-353 | Over any event list the reader gets the events and passes through the very states the writer passed through, predictors and windows alike, if all events fit; otherwise it gets another list, or none |
| CallReturn.TracksStep | python/src/trlog/ext/callreturn.py:222-260 | After every event the writer's state is told by the list of events: the event's time, the last frames written out in full, and the integers of each function's latest call |
| CallReturn.RunTracks | python/src/trlog/ext/callreturn.py:222-260 | So it is throughout a run |
| CallReturn.RunExtends | python/src/trlog/ext/callreturn.py:222-260 | Along a whole run every window is duplicate-free and within its cap, and string ids are never changed |
| CallReturn.BackReferenceInRange | python/src/trlog/ext/callreturn.py:262-267 | A back-reference is written exactly when the frame is in the window, and its distance leads to that frame |
| CallReturn.BlockRoundTrip | python/src/trlog/ext/callreturn.py:222-353 | A block reads back as its streams, window size and events, whatever the window size, if and only if every event can be carried, a condition on the list of events alone |
| CallReturn.CallReturnWriter.EnterCall | python/src/trlog/ext/callreturn.py:170-178 | A call is recorded exactly when it matches its function's signature; otherwise nothing changes |
| CallReturn.CallReturnWriter.ExitCall | python/src/trlog/ext/callreturn.py:179-184 | An exit is recorded, and the depth never falls below zero |
| CallReturn.CallReturnWriter.EncodeArgs | python/src/trlog/ext/callreturn.py:105-117 | The argument loop writes the specified bytes, updates the predictors as specified and interns its texts in order |
| CallReturn.CallReturnWriter.EncodeEvent | python/src/trlog/ext/callreturn.py:222-260 | One turn of the loop writes the specified bytes and goes to the specified state |
| CallReturn.CallReturnWriter.FindFrame | python/src/trlog/ext/callreturn.py:262-267 | The backward search gives the distance to the newest equal frame, or none |
| CallReturn.CallReturnWriter.EncodeEvents | python/src/trlog/ext/callreturn.py:222-260 | The loop writes the specified block and leaves the specified string table |
| CallReturn.CallReturnReader.DecodeBlock | python/src/trlog/ext/callreturn.py:314-353 | The reader's loop gives the specified events or fault on any payload |
| CallTree.BuildAdds | python/src/trlog/ext/callreturn.py:370-385 | An event adds itself at its depth to the flattened tree, and a stray exit adds nothing |
| CallTree.HangAdds | python/src/trlog/ext/callreturn.py:370-385 | Hanging a call on its parent adds its exit and nothing else |
| CallTree.ForestIsSoFar | python/src/trlog/ext/callreturn.py:370-385 | Closing the stack of open calls into a forest loses nothing |
| CallTree.TreeFaithful | python/src/trlog/ext/callreturn.py:355-385 | Flattening the tree gives back the events at the depths the annotation gives them; stray exits are as if deleted; unclosed calls lie on the last spine only |
| CallTree.AnnotateKeeps | python/src/trlog/ext/callreturn.py:355-368 | Annotation leaves the events themselves alone |
| CallTree.Events | python/src/trlog/ext/callreturn.py:355-368 | The depth loop yields the specified annotation |
| CallTree.CallForest | python/src/trlog/ext/callreturn.py:370-385 | The stack loop yields the specified forest |
| Derived.Compile | python/src/trlog/_derived.py:130-157 | The recursion over one shared buffer appends exactly the expression's code |
| Derived.CompilerCorrect | python/src/trlog/_derived.py:130-157 | Compiled code, executed on any stack and before any continuation, pushes exactly the expression's value and goes on |
| Derived.EvalCorrect | python/src/trlog/_derived.py:164-215 | Evaluation of compiled code never fails, and gives the expression's value cut to the output width (64 bits when it is 0) |
| Derived.EvalBounded | python/src/trlog/_derived.py:164-215 | Any bytecode that evaluates gives a result within the output width |
| Derived.EvalBytecode | python/src/trlog/_derived.py:164-215 | The stack loop gives the specified result, or fails where a bad opcode, a missing operand or a wrong final stack makes it |
| Derived.DefinitionRoundTrip | python/src/trlog/_derived.py:225-258 | A definition reads back, whatever follows it |
| BitLaws.BitsDecide | python/src/trlog/_derived.py:164-215 | Integers are equal exactly if all their bits are, in two's complement |
| BitLaws.GateBits | python/src/trlog/_derived.py:176-186 | And, or, exclusive or and complement act on each bit by itself |
| Circuits.ValueIsCircuit | python/src/trlog/_derived.py:164-211 | Every bit of an expression's value is what the circuit says: gates bit by bit, shifts, slices and concatenations as wires, comparisons and reductions as single bits |
| Circuits.EvalIsCircuit | python/src/trlog/_derived.py:130-215 | Compiled and evaluated, an expression gives exactly the circuit's bits below the output width, 64 if there is none |
| Sweep.SweepIsSampling | python/src/trlog/_derived.py:266-292 | From the first input change on, the last derived change at or before any instant is the bytecode's value on the inputs sampled there (0 for one that has not begun); before it there is none; times strictly rise and neighbours differ |
| Sweep.StepsLean | python/src/trlog/_derived.py:266-292 | Derived changes happen only at input change times, at rising times and with changing values |
| Sweep.MoveCursor | python/src/trlog/_derived.py:279-286 | The cursor ends just past the changes up to the instant, and the current value is the input's value there |
| Sweep.MoveCursors | python/src/trlog/_derived.py:279-286 | After the cursors moved, the current values are the inputs sampled at the instant |
| Sweep.EvaluateChanges | python/src/trlog/_derived.py:266-292 | The event-driven sweep with its cursors computes the specified change list |
| DerivedRead.SweepCombines | python/src/trlog/_derived.py:266-292 | If the inputs' lists hold the inputs' values at an instant, the swept list holds the node's |
| DerivedRead.ReadsPointwise | python/src/trlog/_reader.py:477-498 | At every instant the list a node reads as has the value the nested expressions have there |
| DerivedRead.EveryNodePointwise | python/src/trlog/_reader.py:477-498 | Every node of the graph that has a value reads as a sorted list that is right everywhere |
| DerivedRead.ReadDerived | python/src/trlog/_reader.py:477-498 | A read fails exactly on an unknown signal or a cycle below it; otherwise the list is sorted and right at every instant |
| Deps.CycleSearch.Visit | python/src/trlog/_deps.py:58-72 | A visit either returns a cycle or leaves its node and all below it black and the path as it was |
| Deps.FindCycle | python/src/trlog/_deps.py:52-77 | None exactly when the graph is acyclic; otherwise a closed walk of its edges |
| Deps.TopoOrder | python/src/trlog/_deps.py:85-102 | Raises exactly on a cyclic graph; otherwise lists every node once with its inputs before it |
| Deps.FinalizeOrder | python/src/trlog/_deps.py:104-107 | Lists every node once with its inputs after it, and raises exactly on a cyclic graph |
| Deps.OrderedIsAcyclic | python/src/trlog/_deps.py:85-102 | A graph that has an inputs-first order of all its nodes has no cycle |
| Materializer.ValueUnique | python/src/trlog/_deps.py:125-138 | A node has at most one recursive value |
| Materializer.ValueMeansNoCycle | python/src/trlog/_deps.py:125-138 | A node with a recursive value has no cycle below it |
| Materializer.Computed | python/src/trlog/_deps.py:125-138 | Computing from the inputs' values gives the node's value |
| Materializer.Materializer.Materialize | python/src/trlog/_deps.py:125-138 | From any state inside a chain of calls: the node's value, or a raise only when a cycle is below it; the in-progress set is restored, the cache only grows, and only by nodes below this one |
| Materializer.Materializer.Request | python/src/trlog/_deps.py:125-138 | Raises exactly when a cycle is reachable; otherwise returns the recursive value; over the object's life each node is computed at most once and nothing stays in progress |
| Materializer.Materializer.IsMaterialized | python/src/trlog/_deps.py:140 | Reports whether the node is cached |
| WriterGraphs.RunKeepsSound | python/src/trlog/_writer.py:477-486 | From a sound state, any calls, accepted or rejected, lead to a sound state |
| WriterGraphs.AlwaysAcyclic | python/src/trlog/_writer.py:477-522 | After any sequence of calls the stream catalog and the derived-input graph are both acyclic |
| WriterGraphs.ForwardReferenceNeverCloses | python/src/trlog/_writer.py:477-486 | If a new definition would lead back to itself through an earlier forward reference it is rejected, the graph stays as it was, and its id is never defined by any later calls |
| WriterGraphs.UsedUpStaysOut | python/src/trlog/_writer.py:477-486 | An id used up by a rejected definition stays undefined for ever |
| WriterGraphs.Writer.AddStreamType | python/src/trlog/_writer.py:412-416 | A new stream type gets the next id and no inputs, and changes nothing else |
| WriterGraphs.Writer.DeclareDependencies | python/src/trlog/_writer.py:511-522 | Rejected exactly when the declared inputs would close a cycle, which it names; a rejected call changes nothing |
| WriterGraphs.Writer.AddDerivedSignal | python/src/trlog/_writer.py:450-486 | Accepted only when the graph with the new signal is acyclic, rejected with a cycle of it otherwise |
| VcValues.NumberOfBits | python/src/trlog/_vc_data.py:708-786 | The state codes of a number are binary and give the number back, cut to the width |
| VcValues.CodesArePlaces | python/src/trlog/_vc_data.py:28-29 | The code of a state is its place among 0, 1, X, Z, H, U, W, L and -, anything else counts as 0, and a reader takes other codes as numbers |
| VcValues.FourExact | python/src/trlog/_vc_data.py:708-745 | A four-state value survives packing exactly when it is a number that fits the width, or all X |
| VcValues.NineExact | python/src/trlog/_vc_data.py:748-786 | A nine-state value survives packing exactly when it is a number that fits the width, or a list of as many of the nine states, not all of them 0 or 1 |
| VcValues.Pack4State | python/src/trlog/_vc_data.py:708-721 | Filling the bytes in place, four states a byte, gives the specified packing |
| VcValues.Unpack4State | python/src/trlog/_vc_data.py:724-745 | The two passes give the number when all states are binary, and the list of states otherwise |
| VcValues.Pack9State | python/src/trlog/_vc_data.py:748-766 | Filling the bytes in place, two states a byte, gives the specified packing |
| VcValues.Unpack9State | python/src/trlog/_vc_data.py:769-786 | One pass gives the number when all states are binary, and the list of states otherwise |
| VcCodes.SizesAreLeast | python/src/trlog/_vc_data.py:708-766 | Values take the fewest whole bytes, at least one, that hold one, two or four bits a state |
| VcCodes.NineWire | python/src/trlog/_vc_data.py:748-766 | In the packed bytes the i-th nibble, the higher half first, is the place of the i-th state among the nine, or the i-th bit of a number from the top |
| VcCodes.TextWire | python/src/trlog/_vc_data.py:756-758 | A text is packed as the list of its characters |
| VcCodes.FourWire | python/src/trlog/_vc_data.py:708-721 | In the packed bytes the i-th pair of bits is the i-th bit of a number from the top, and 2 for every bit of anything else |
| VcCodes.FourPlaces | python/src/trlog/_vc_data.py:691-700 | The four states have the codes 0 to 3 in the order 0, 1, X, Z, and one-bit values are coded by their low bit or letter |
| VcCodes.NineShown | python/src/trlog/_vc_data.py:769-786 | Whatever the bytes, a reader makes of them the number whose bits the nibbles are if none is above 1, else the list of their states |
| VcCodes.FourShown | python/src/trlog/_vc_data.py:724-745 | The same for pairs of bits |
| VcWave.EntryReads | python/src/trlog/_vc_data.py:462-509 | A single entry of any encoding reads back as its time place and value as the encoding keeps it, whatever follows |
| VcWave.CollapseIsMaximal | python/src/trlog/_vc_data.py:443-458 | The groups expand to the steps, none is empty and neighbouring ones differ |
| VcWave.StepsReplay | python/src/trlog/_vc_data.py:431-442 | Flipping the recorded bits again gives every value and time place back |
| VcWave.WaveRoundTrip | python/src/trlog/_vc_data.py:401-684 | A wave of any encoding decodes to its entries whatever bytes follow it, so several variables can share one stored wave |
| VcWave.SeenExact | python/src/trlog/_vc_data.py:691-745 | A change's value comes back unchanged exactly when its encoding holds it exactly |
| VcWave.CollapseRuns | python/src/trlog/_vc_data.py:443-458 | The one-pass loop finds the maximal runs |
| VcWave.EncodeWave | python/src/trlog/_vc_data.py:401-509 | The encoder's loops write the specified wave, and raise exactly when a change is not behind the one before it |
| VcWave.DecodeWave | python/src/trlog/_vc_data.py:535-684 | The decoder's loops give the specified entries or fault on any bytes |
| VcWave.ReadGroups | python/src/trlog/_vc_data.py:535-684 | The group loop gives the specified entries, restarting nothing between groups |
| VcWave.RunOut | python/src/trlog/_vc_data.py:535-684 | A group's inner loop adds one entry for each repetition and ends at the specified place and value |
| VcBlock.EntriesFine | python/src/trlog/_vc_data.py:163-178 | In a block whose times are distinct for each variable, sorted changes have climbing time places, so the index deltas are never negative |
| VcBlock.ClimbsExactly | python/src/trlog/_vc_data.py:163-178 | A variable's time places climb if and only if its change times differ |
| VcBlock.EarlyExactly | python/src/trlog/_vc_data.py:215-233 | The time table starts at or after the block start if and only if no change is before it |
| VcStore.PutAllKeeps | python/src/trlog/_vc_data.py:180-207 | Storing further waves changes no offset already given, and every wave has one |
| VcStore.OneCopyEach | python/src/trlog/_vc_data.py:180-207 | The wave data is exactly one copy of each distinct wave in order of first appearance |
| VcStore.StoredReads | python/src/trlog/_vc_data.py:512-569 | A stored wave, packed on its own or not, reads back whatever follows it |
| VcStore.OffsetReads | python/src/trlog/_vc_data.py:180-207 | Reading at the offset kept for a wave finds that wave |
| VcSizes.WaveWithin | python/src/trlog/_vc_data.py:401-509 | A wave is no longer than ten bytes and thirty for each change beside the values, against any time table |
| VcPayload.TimeTableReads | python/src/trlog/_vc_data.py:215-291 | The delta-coded time table reads back, packed or not |
| VcPayload.InitReads | python/src/trlog/_vc_data.py:350-396 | An initial value reads back as its encoding keeps it, whatever follows |
| VcPayload.TablesRead | python/src/trlog/_vc_data.py:236-248 | Position table and wave data read back, whatever the entry size |
| VcPayload.FooterFindsTable | python/src/trlog/_vc_data.py:244-248 | The last eight bytes of a seekable payload say where its position table starts |
| VcPayload.VarReads | python/src/trlog/_vc_data.py:308-334 | The wave at a variable's position gives that variable's changes, or its initial value at the start of the block |
| VcPayload.PayloadRoundTrip | python/src/trlog/_vc_data.py:152-334 | Decoding an encoded payload gives every variable's changes and one initial value for each variable without changes, sorted by time and variable, for all flags and although equal waves are stored once |
| VcDataBlocks.BlockRoundTrip | python/src/trlog/_vc_data.py:92-146 | With any compression options a block reads back as its range and its listing |
| VcDataBlocks.ListingMeaning | python/src/trlog/_vc_data.py:308-334 | A reader sees a change exactly if it is one of the block, or the initial value of a variable with none; the list is strictly ordered by time and variable |
| VcDataBlocks.PickIsExpected | python/src/trlog/_vc_data.py:308-334 | A variable's part of the listing depends on that variable alone |
| VcDataBlocks.ExactValuesComeBack | python/src/trlog/_vc_data.py:92-146 | A variable's very changes come back in time order if and only if each value is one its encoding holds exactly |
| VcDataBlocks.InitExact | python/src/trlog/_vc_data.py:350-396 | Exactly which initial values come back unchanged |
| VcDataBlocks.InitialZIsLost | python/src/trlog/_vc_data.py:350-396 | A one-bit four-state signal that starts at Z is read as a list holding X |
| VcBuild.BuiltFromCalls | python/src/trlog/_vc_data.py:75-86 | After any builder's calls a block has each variable's changes in the order of the calls, as its initial value the latest that was set or else its first change's, and ends at the latest change |
| VcDataBlocks.AddedKeepsRange | python/src/trlog/_vc_data.py:79-86 | Adding any change keeps the block's range around all its changes |
| VcOptions.FlagsFollowOptions | python/src/trlog/_vc_data.py:92-122 | Each flag of a block says what the options ask for; a block compressed as a whole has no part compressed and no footer, and its payload is packed by the compressor named |
| VcOptions.PackedIfWorth | python/src/trlog/_vc_data.py:512-534 | A wave is packed by the compressor the flags name, and only if that saves more than two bytes |
| VcOptions.PositionBytes | python/src/trlog/_vc_data.py:230-240 | Positions have four bytes exactly while the wave data is below 4 GiB, else eight |
| VcOptions.Defaults | python/src/trlog/_vc_data.py:220-228 | A variable without a type is a one-bit two-state signal, and one without an initial value starts at zero, an empty text or a zero double |
| VcDataBlocks.SeenInRange | python/src/trlog/_vc_data.py:79-86 | Everything a reader sees of a block lies in its range |
| VcCodec.StoreWaves | python/src/trlog/_vc_data.py:180-207 | The loop over the waves gives the specified store and every variable's position |
| VcCodec.WriteTimes | python/src/trlog/_vc_data.py:215-233 | The loop over the times gives the specified table, and raises exactly when the first time is before the start |
| VcCodec.ReadTimeTable | python/src/trlog/_vc_data.py:272-291 | The reading loop gives the specified times or fault |
| VcCodec.ReadVar | python/src/trlog/_vc_data.py:308-334 | Time places become times, a place outside the table raises, and a variable without changes shows its initial value |
| VcCodec.VcDataBlock.SetInitial | python/src/trlog/_vc_data.py:75-77 | Sets the variable's initial value and nothing else |
| VcCodec.VcDataBlock.AddChange | python/src/trlog/_vc_data.py:79-86 | Appends the change, sets a missing initial value and widens the range; the range keeps covering all changes |
| VcCodec.VcDataBlock.EncodePayload | python/src/trlog/_vc_data.py:152-248 | For any flags the method writes the specified payload, and raises exactly when a variable changes twice at one time or before the block start |
| VcCodec.VcDataBlock.EncodeBlock | python/src/trlog/_vc_data.py:92-121 | Flags and payload are those of the block and its options; raises exactly when a variable changes twice at one time or before the block start |
| VcCodec.VcDataBlock.DecodePayload | python/src/trlog/_vc_data.py:250-334 | The method gives the specified changes or fault on any bytes, takes over the range and leaves the builder's changes alone |
| VcCodec.VcDataBlock.ReadBlock | python/src/trlog/_vc_data.py:123-146 | Unpacks as the flags say and decodes with the signal map given, or with its own |
| VcNative.TimeIndex | c/src/vc_data.c:85-93 | The binary search ends at the first place whose time is not below the one asked for |
| VcNative.UniqueInPlace | c/src/vc_data.c:402-405 | Compaction in place leaves each time once, in rising order |
| VcNative.TimeTable | c/src/vc_data.c:386-405 | Gathered, sorted and uniqued times are the same table as the Python encoder's |
| VcNative.ReadWord | c/src/vc_data.c:228-237 | The loop gives the big-endian number of the first eight bytes |
| VcNative.Deltas | c/src/vc_data.c:258-274 | The 64-bit arrays hold the distances, all ones where a place comes again, and the flipped bits of every change |
| VcNative.RunSplits | c/src/vc_data.c:276-294 | The run found at a place is the first of the maximal runs from there on |
| VcNative.RunEnd | c/src/vc_data.c:276-294 | The inner loop stops at the end of the maximal run |
| VcNative.CountGroups | c/src/vc_data.c:276-283 | The counting pass counts the maximal runs |
| VcNative.EmitGroups | c/src/vc_data.c:285-294 | The writing pass writes exactly the maximal runs |
| VcNative.EncodeWaveXorRle | c/src/vc_data.c:250-294 | The three passes append exactly the run form of the steps, also when changes share a time |
| VcNative.SameBytesAsPython | python/src/trlog/_vc_data.py:431-458 | When all times differ and numbers are below 2^70, the Python wave of a two-state signal of width above one is those very bytes if and only if every value has at most eight bytes or is zero |
| VcNative.GroupsEmit | c/src/vc_data.c:610-639 | The C group decoder emits the replayed entries of any maximal groups that stay within the time table, and goes on behind them |
| VcNative.StepsBreak | c/src/vc_data.c:258-294 | The steps up to the first repeated time are the Python encoder's; there the distance minus one has become 2^63 - 1 |
| VcNative.NativeRoundTrip | c/src/vc_data.c:610-639 | From what the C encoder wrote the C decoder emits the times and the 64-bit words in order, if and only if no two changes share a time; otherwise it stops with an error at the first repeated time |
| VcNative.WordIsFull | c/src/vc_data.c:228-237 | The 64-bit word is the recorded number if and only if that has at most eight bytes or is zero; otherwise it is smaller |
| VcNative.EmittedValue | c/src/vc_data.c:610-639 | A change is emitted with its own time, and with the recorded number if and only if the 64-bit word and the callback's bytes both hold that |
| VcNative.OriginalsComeBack | c/src/vc_data.c:250-294 | From encoder to decoder every recorded time and number comes back without an error if and only if no two changes share a time and every number is held by word and callback bytes |
| VcNative.WideValueIsLost | c/src/vc_data.c:228-237 | A 72-bit signal with the number 5 in nine bytes is emitted as 0 |
| VcNative.ReadGroups64 | c/src/vc_data.c:610-639 | The decoder's loop emits the specified changes, and reports failure where specified |
| VcNative.ReadRun64 | c/src/vc_data.c:610-639 | A run of any stated length ends within the time table |
| VcNativeEntries.OneReads | c/src/vc_data.c:304-355 | An entry of any of the five encodings reads back with its value's bytes, and with the distance but for the top bits that its header's shift drops |
| VcNativeEntries.EntriesRoundTrip | c/src/vc_data.c:641-706 | The reader gets through a wave of entries if and only if the encoding's header does not shift the distance or no two changes share a time; it emits every change, or every change up to the first repeated time and then an error |
| VcNativeEntries.WideValueExactly | c/src/vc_data.c:318-341 | A wide four-state or nine-state value is shown as recorded if and only if it fits the bytes, or is 0 or 1 if it was given as a word |
| VcNativeEntries.AppendExact | c/src/vc_data.c:73-83 | Appends exactly so many bytes: the last ones, or all with zeros in front |
| VcNativeEntries.EncodeWaveEntries | c/src/vc_data.c:304-355 | The loop appends the count and one entry a change, with the wrapped and shifted distances, also when changes share a time |
| VcNativeEntries.ReadEntries | c/src/vc_data.c:641-706 | The reader's loop emits the specified changes on any bytes, and ends with or without an error where specified |
| VcOptions.CallbackBytes | c/src/vc_data.c:610-639 | A callback gets the fewest whole bytes that hold a value, and never more than eight |
| VcOptions.NativeSizes | c/src/vc_data.c:317-341 | A wide value is written in one bit a state if its bytes are no more than that takes, else in two bits or four, always in the fewest whole bytes |
| VcOptions.NativeBits | c/src/vc_data.c:311-316 | A one-bit signal shows the lowest bit of what was recorded, a four-state one its lowest two |
| ByteSplit.SplitInverts | python/src/trlog/_bytesplit.py:35-66 | Splitting raises exactly when the width does not divide the length, and splitting and unsplitting undo each other in both orders |
| ByteSplit.SplitPlaces | python/src/trlog/_bytesplit.py:35-49 | Byte p of value i goes to place p * n + i |
| ByteSplit.SplitKeepsBytes | python/src/trlog/_bytesplit.py:35-49 | Splitting keeps the multiset of bytes |
| ByteSplit.SplitPlanes | python/src/trlog/_bytesplit.py:35-49 | The nested loops fill the planes as specified |
| ByteSplit.UnsplitPlanes | python/src/trlog/_bytesplit.py:52-66 | The nested loops spread the planes as specified |
| BytesplitBlocks.VarReads | python/src/trlog/_bytesplit.py:127-189 | One variable's deltas and planes read back, whatever follows |
| VcOptions.PlaneWidths | python/src/trlog/_bytesplit.py:77-85 | Exactly doubles and two-state values are supported; they take the fewest whole bytes that hold them, a double eight |
| BytesplitBlocks.PlanesRoundTrip | python/src/trlog/_bytesplit.py:127-189 | A block of non-decreasing times reads back as all changes by ascending variable id |
| BytesplitBlocks.BytesplitBlock.AddChange | python/src/trlog/_bytesplit.py:119-122 | Appends the change to its variable and moves the end |
| BytesplitBlocks.BytesplitBlock.SetInitial | python/src/trlog/_bytesplit.py:124-125 | Puts a change at the start of the block in front of all others of its variable |
| BytesplitBlocks.BytesplitBlock.EncodeBlock | python/src/trlog/_bytesplit.py:127-157 | The loops write the specified payload, and raise exactly when some variable's times go back |
| BytesplitBlocks.BytesplitBlock.DecodeChanges | python/src/trlog/_bytesplit.py:160-189 | The loops give the specified changes or fault on any payload |
| TraceRead.IndexedIsScan | python/src/trlog/_reader.py:209-240 | With a right index, reading the overlapping blocks gives what filtering the whole scan gives: for any trace when an end is given, and otherwise when blocks start by 2^63 |
| TraceRead.OpenEndedExactly | python/src/trlog/_reader.py:209-240 | Without an end the indexed read is the scan if and only if no block that starts past 2^63 holds a change of the signal at or after its start |
| TraceRead.LateBlockIsMissed | python/src/trlog/_reader.py:209-240 | A block past 2^63 that holds a wanted change makes the indexed read shorter than the scan |
| TraceRead.FindBlocks | python/src/trlog/_index.py:195-197 | The offsets of exactly the entries whose range overlaps, in index order |
| TraceRead.ScanSignal | python/src/trlog/_reader.py:105-123 | The scan's loop keeps the signal's changes within the bounds from every value-change block |
| TraceRead.ReadOneSignal | python/src/trlog/_reader.py:209-240 | The method takes the index only when there is one and a start is given, and reads as specified either way |
| TraceMeaning.WithinMeans | python/src/trlog/_reader.py:209-240 | What a read keeps are exactly the changes with start <= time <= end, bounds inclusive or missing, each as often as it is there and in order |
| TraceMeaning.PickMeans | python/src/trlog/_reader.py:209-240 | Of a block it keeps exactly the signal's own changes, in order |
| TraceMeaning.FindsCommonTimes | python/src/trlog/_index.py:195-197 | The index search gives exactly the entries that have a time in common with the range asked for, in order |
| TraceWrite.BuildersCover | python/src/trlog/_vc_data.py:75-86 | Under the builder's calls every variable with changes has an initial value |
| TraceWrite.PartOk | python/src/trlog/_writer.py:639-671 | A part of an encodable block is encodable |
| TraceWrite.PartShows | python/src/trlog/_writer.py:639-671 | A part shows each of its variables as the whole block does, and no others |
| TraceWrite.BuildPart | python/src/trlog/_writer.py:639-671 | The loops copy exactly a scope's variables, with a range that covers them |
| TraceWrite.TraceWriter.Append | python/src/trlog/_writer.py:629-637 | The encoded block comes behind the file, its range and place behind the index, and every signal's read grows by what the block shows of it |
| TraceWrite.TraceWriter.ScopesAre | python/src/trlog/_writer.py:639-655 | There is a part for each scope that has a variable in the block, once, in rising order; variables of no scope go with scope 0 |
| TraceWrite.TraceWriter.FlushByScope | python/src/trlog/_writer.py:639-671 | When each scope's wave data stays below 2^64 bytes, one block for each scope is added, with all of that scope's variables and no others, and every signal's read grows exactly as writing the block whole would make it |
| TraceWrite.TraceWriter.FlushableParts | python/src/trlog/_writer.py:639-671 | Every scope's block of an encodable block is encodable, covered by its range and, within that length, readable |
| TraceWrite.TraceWriter.SmallPartsFit | python/src/trlog/_writer.py:639-671 | A block with few enough changes and bytes of values fits however it is split; the count does not look at times or scopes |
| TraceWrite.TraceWriter.FlushVc | python/src/trlog/_writer.py:627-671 | Either way of flushing keeps the trace faithful: the scan of every signal is what was recorded, and the index covers every block |
| TraceWrite.ReadBack | python/src/trlog/_reader.py:209-240 | In a faithful trace every read, indexed or not, is the recorded changes within the bounds, whether blocks were split by scope or not |
| TypedAttrs.TypedRoundTrip | python/src/trlog/_metadata.py:41-98 | A typed attribute reads back with its type and value, whatever follows |
| Hierarchy.AttrsParse | python/src/trlog/_hierarchy.py:192-361 | A node's printed attributes are parsed onto that node, behind those it has |
| Hierarchy.NodeParses | python/src/trlog/_hierarchy.py:203-361 | In any parser state and before any continuation, a printed subtree is parsed as that subtree added behind the current node's children |
| Hierarchy.NodesParse | python/src/trlog/_hierarchy.py:203-361 | The same for lists of subtrees |
| Hierarchy.TreeRoundTrip | python/src/trlog/_hierarchy.py:203-361 | Parsing a printed forest gives the forest, every attribute on its own node, the scope stack empty and the flat maps those of the forest |
| Hierarchy.MapLists | python/src/trlog/_hierarchy.py:268-361 | When ids are distinct, a flat map lists exactly the forest's nodes of its kind |
| HierarchyBlocks.WholeLists | python/src/trlog/_hierarchy.py:51-122 | The nodes of a forest under construction are those of the whole tree |
| HierarchyBlocks.InnerRoundTrip | python/src/trlog/_hierarchy.py:192-266 | Header and forest read back |
| HierarchyBlocks.BlockRoundTrip | python/src/trlog/_hierarchy.py:141-187 | With any compression flags a block reads back as its header and its forest |
| HierarchyBlocks.HierarchyBlock.BeginScope | python/src/trlog/_hierarchy.py:51-72 | Opens a scope in the innermost open one, and attributes go to it |
| HierarchyBlocks.HierarchyBlock.EndScope | python/src/trlog/_hierarchy.py:74-78 | Raises exactly when no scope is open; closing changes no node of the tree |
| HierarchyBlocks.HierarchyBlock.AddVar | python/src/trlog/_hierarchy.py:80-106 | Adds a variable with a new id behind the current children, in tree and map alike |
| HierarchyBlocks.HierarchyBlock.AddStream | python/src/trlog/_hierarchy.py:108-122 | Adds a stream with a new id behind the current children, in tree and map alike |
| HierarchyBlocks.HierarchyBlock.AddAttr | python/src/trlog/_hierarchy.py:124-129 | Raises exactly when there is no node to carry it; otherwise the last declared node has one attribute more, in tree and map alike |
| HierarchyBlocks.HierarchyBlock.AddTypedAttr | python/src/trlog/_hierarchy.py:131-135 | The same for typed attributes |
| HierarchyBlocks.HierarchyBlock.EncodeBlock | python/src/trlog/_hierarchy.py:141-162 | Writes the specified block of everything built so far, open scopes included |
| HierarchyBlocks.EncodeNode | python/src/trlog/_hierarchy.py:203-238 | The printer writes the specified bytes of a subtree |
| HierarchyBlocks.HierarchyBlock.BuiltRoundTrip | python/src/trlog/_hierarchy.py:141-187 | Whatever the builder calls made reads back into a new block as the same tree and the same flat maps |
| HierarchyBlocks.HierarchyBlock.DecodeTagSequence | python/src/trlog/_hierarchy.py:268-361 | The stack loop gives the specified forest or fault on any bytes |
| HierarchyBlocks.HierarchyBlock.ReadBlock | python/src/trlog/_hierarchy.py:164-167 | Unpacks, parses and takes the result over |
| Vpi.EmitGroups | vpi/src/trlog_vpi_value.c:134-157 | The loop over sorted records leaves one finished block for each run of equal scopes |
| Vpi.GroupsByScope | vpi/src/trlog_vpi_value.c:134-157 | Of records in scope order there is one group a scope, and it holds exactly that scope's records |
| VpiRuns.GroupedFlush | vpi/src/trlog_vpi_value.c:134-157 | A grouped flush writes each pending change exactly once, in one block for each distinct scope, none starting after its changes |
| VpiRuns.DrainKeeps | vpi/src/trlog_vpi_value.c:271-352 | A drain writes each marked signal's settled value once, leaves no mark, keeps the invariants and ends below the flush interval |
| VpiRuns.SnapshotKeeps | vpi/src/trlog_vpi_value.c:378-407 | A snapshot writes every signal's value once and keeps the invariants and the marks' drain |
| VpiRuns.EndKeeps | vpi/src/trlog_vpi.c:308-318 | At the end every value ever written is in exactly one finished block, in order when not grouped |
| VpiRuns.StepKeeps | vpi/src/trlog_vpi.c:155-318 | Every call of the interface keeps all invariants |
| VpiRuns.RunKeeps | vpi/src/trlog_vpi.c:155-318 | Hence so do calls in any number and order |
| VpiRuns.Reachable | vpi/src/trlog_vpi_value.c:76-407 | In every reachable state: paused means nothing open or buffered; a mark exists exactly when a drain is outstanding; the counter is the number of changes held and below the interval; no block starts after one of its changes; every value written is held or finished exactly once |
| VpiStory.TouchedMeans | vpi/src/trlog_vpi_value.c:358-372 | A signal counts as touched exactly if some change of it came in while recording and no drain has been since |
| VpiStory.RunIsStory | vpi/src/trlog_vpi_value.c:76-407 | After any calls the recorder is open and paused as the calls tell (paused by dumpoff or the limit, resumed by dumpon), exactly the touched signals are marked, what it has written is each drain's touched signals and each snapshot's signals with their values in order, and it holds the end of that from the last flush on |
| VpiFile.RunIsFiled | vpi/src/trlog_vpi_value.c:76-407 | After any calls the finished blocks are exactly what was written, cut where the interval, the limit, a pause, a flush or a snapshot ends a batch, each starting when its batch began, and when grouped one block a scope |
| VpiTimes.DrainStaysDistinct | vpi/src/trlog_vpi_value.c:271-352 | Adding the marked values to the held ones keeps a signal's times apart exactly when they were apart and the signal is not marked with a held change at the drain's own time |
| VpiTimes.GroupsDistinct | vpi/src/trlog_vpi_value.c:134-157 | The blocks of a grouped flush have a signal twice at one time exactly if the buffer had that signal so |
| VpiTimes.StepClean | vpi/src/trlog_vpi.c:155-318 | A call of the interface leaves all blocks without a given signal twice at one time if and only if they were so before and the call is not a drain that clashes on it |
| VpiTimes.SignalDistinctExactly | vpi/src/trlog_vpi_value.c:271-407 | Over any run with signals of different ids, no finished or collected block has a given signal twice at one time if and only if no drain found that signal marked with a held change at the drain's time |
| VpiTimes.BlocksDistinctExactly | vpi/src/trlog_vpi_value.c:271-407 | The same for all signals together |
| VpiTimes.TwiceInOneStep | vpi/src/trlog_vpi_value.c:271-372 | From the start through the interface, for any flush interval of at least 2: change, drain, change, drain at one time ends with a finished block that has both |
| VpiNative.BlockReadsExactly | c/src/vc_data.c:296-353 | The C reader gets through all waves of a block, whatever their signals' encodings, if and only if no signal but of real, string or zero-width type changes twice at one time |
| VpiNative.RecordingReadsExactly | vpi/src/trlog_vpi_value.c:271-407 | All waves of a signal in an ended recording can be read if and only if it is of those types or no drain of the run clashed on it |
| VpiRecorder.Recorder.ValueChange | vpi/src/trlog_vpi_value.c:358-372 | A known signal is marked and a drain requested unless one is outstanding; an index out of range does nothing |
| VpiRecorder.Recorder.WriteSignalValue | vpi/src/trlog_vpi_value.c:165-260 | One change goes to the buffer or the open block, and is counted |
| VpiRecorder.Recorder.EmitSorted | vpi/src/trlog_vpi_value.c:134-157 | The loop over sorted records drives the writer as specified |
| VpiRecorder.Recorder.FlushPendingBuffer | vpi/src/trlog_vpi_value.c:134-157 | Sorts, writes and empties the buffer as specified |
| VpiRecorder.Recorder.CheckDumpLimit | vpi/src/trlog_vpi_value.c:76-92 | Past the limit everything is flushed and recording pauses; otherwise nothing changes |
| VpiRecorder.Recorder.DeltaCallback | vpi/src/trlog_vpi_value.c:271-352 | The drain's loop over the signals makes the specified step |
| VpiRecorder.Recorder.SnapshotAll | vpi/src/trlog_vpi_value.c:378-407 | The snapshot, grouped or direct, makes the specified step |
| VpiRecorder.Recorder.FlushAny | vpi/src/trlog_vpi.c:155-167 | Flushes the buffer or the open block and zeroes the counter |
| VpiRecorder.Recorder.DumpOff | vpi/src/trlog_vpi.c:257-264 | Takes the specified step and keeps all invariants |
| VpiRecorder.Recorder.DumpOn | vpi/src/trlog_vpi.c:266-273 | Takes the specified step and keeps all invariants |
| VpiRecorder.Recorder.DumpFlush | vpi/src/trlog_vpi.c:275-281 | Takes the specified step and keeps all invariants |
| VpiRecorder.Recorder.DumpAll | vpi/src/trlog_vpi.c:296-302 | Takes the specified step and keeps all invariants |
| VpiRecorder.Recorder.EndOfSimulation | vpi/src/trlog_vpi.c:308-318 | Takes the specified step, keeps all invariants and leaves every value ever written in a finished block |
| Golden.RawCall | tests/golden/corpus.py:295-311 | The transaction payload of callreturn.trl, byte by byte |
| Golden.AndGate | tests/golden/corpus.py:276-289 | The two definitions of derived.trl with their bytecode |
| Golden.Strings | tests/golden/corpus.py:169-185 | The first entries of a string table, as hierarchy.trl has them |
| Golden.Tree | tests/golden/corpus.py:169-185 | The hierarchy of hierarchy.trl |
| Golden.Typed | tests/golden/corpus.py:235-254 | Typed attributes of transparent_meta.trl |
| Golden.Enumerations | python/src/trlog/_types.py:24-99 | The codes that parsers accept for kinds of hierarchies and scopes, directions and links are the members of the enumerations |
| GoldenCalls.Events | tests/golden/corpus.py:295-311 | The call events of callreturn.trl, with a back-reference |
| GoldenWaves.NineWave | tests/golden/corpus.py:116-125 | The wave of vc_9state.trl, all nine states |
| GoldenWaves.FourWave | tests/golden/corpus.py:103-112 | The wave of vc_4state.trl |
| GoldenWaves.RunsWave | docs/guide/format.md:54-76 | The documented form of XOR deltas and run lengths on three changes |
| GoldenWaves.TwoPayload | tests/golden/corpus.py:276-289 | The whole value-change payload of derived.trl: header, times, initial values, positions, waves; where types or initial values are not given, the defaults do |
| GoldenPlanes.TwoValues | python/src/trlog/_bytesplit.py:127-147 | One variable of a plane block, byte by byte |

## Left out

- File I/O, seeking, block framing and header patching: a file is a sequence of blocks.
- zlib, LZ4, zstd, MD5 and IEEE packing: foreign code, taken as described under Abstractions; an LZ4 library that is not installed is a compressor that is absent.
- The ctypes bridge, codec registries and function tables: plumbing over foreign calls.
- Allocation failure, capacity doubling and memory ownership in C: growable sequences and arrays instead.
- Aliasing of the mutable tree nodes: hierarchy nodes and `Call` nodes are values, so an update is repeated in the flat map instead of being seen through it.
- Arithmetic forms: bits of disjoint fields are joined by addition or by the bit operations of `Bits`, and Python integers are unbounded.
- VcPayload.PayloadRoundTrip: assumes lengths that are written to stay below 2^64, and XOR-coded values below 2^70, which a varint can carry.
- TxnBlock.ColumnPayloadRoundTrip: assumes lengths below 2^64 and ids and times below 2^63; duplicate schema entries do not exist, as a schema is a list.
- CallReturn.BlockRoundTrip: frames are compared by their exact values; Python's `==` also takes 0.0 for -0.0 and 1 for True, and a NaN only for itself as an object.
- CallReturn.NothingIsDropped: `int(x)` of a text, which a shifted predictor may be given, takes a sign and decimal digits; white space, underscores and other digits are not modelled.
- VcNative.EncodeWaveXorRle: the initial values, the framing and the compression of the C block are not modelled, and values handed over as the wrong kind for their encoding are left to the caller.
- VcNative.SameBytesAsPython: numbers of 2^70 and above, which Python writes but does not read back, are set aside.
- VcNativeEntries.ReadEntries: a text whose stated length is so near to 2^64 that `p + header` wraps ends the wave like any other that is too long; a table has fewer than 2^61 times, as one of eight-byte times in memory has.
- StringTables.NativeTable.DecodePayload: a stated length so near to 2^64 that `offset + slen` wraps is an error here, whatever the allocator would make of it.
- StringTables.NativeTable.Intern: ids stop before 2^32 - 1, where the C counters end.
- VpiNative.RecordingReadsExactly: takes equal times within one signal in the order of the changes, where `qsort` may choose any; real values are their eight bytes and texts end before a NUL.
- VcCodec.VcDataBlock.EncodePayload: values outside their signal's range, on which Python raises too, are left to the caller; so they are for byte-plane blocks.
- VpiRuns.Reachable: one trace file per run, a fixed grouping option, non-decreasing simulation time, scope ids below 2^32 - 1; the byte counter's 64-bit wrap-around and the order `qsort` gives equal scopes are not modelled.
- Conversion of strings such as "5" and of floats to integers before packing: values arrive as integers, texts, states or reals.
- The reading of structural-codec blocks through the index, materialised derived blocks, and signal maps joined from several hierarchies.
- Typed metadata blocks, auxiliary and extension blocks and the per-stream transaction index: further simple round trips.
- The raw fallback of call records and the bytes of the signature table.
- Raw bytecode given to `add_derived_signal`, and exceptions raised by a node's compute function.
- The simulator's hierarchy walk, command-line options, signal filters, value fetching and reopening of the file in mid-run.
- The version 1 hierarchy block, whose payload goes to the same parser.
