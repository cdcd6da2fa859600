# Ion tree reader, system dispatch and repeating stream — a Dafny model

This project models three sequential pieces of the Ion Java library and
proves properties about them:

- **IonReaderTreeSystem** (`tree_reader.dfy`, `reader_iterators.dfy`) is a
  streaming cursor over an in-memory Ion value tree. Its state is:
  - the current value `_curr`;
  - a one-value lookahead `_next`;
  - a sticky end flag `_eof`;
  - the enclosing value `_parent` and the iterator `_iter` over its children;
  - an `Object[]` stack. `stepIn` pushes (parent, iterator) pairs onto it and
    `stepOut` pops them, so the depth is `_top / 2`.

  The cursor is a Dafny class. Its stack is an `array<Slot>` that doubles when
  full. A ghost `frames` sequence reads the stack as pairs. The ghost
  `Pending()` is the sequence of values `next()` will still return at the
  current level. The nested `Children` iterator walks a container's live
  child list and re-finds its place by object identity. `StringIterator` and
  `IdIterator` are one generic `ArrayIterator`.
- **IonSystemImpl** (`ion_system.dfy`) covers:
  - the supported system id;
  - recognition of the `$ion_1_0` system-id symbol;
  - the rule for which top-level values start a new local symbol table;
  - `singleValue` over a reader that must hold exactly one value;
  - `newInts`;
  - the catalog and loader setters that refuse null.
- **RepeatInputStream** (`repeat_stream.dfy`) is an `InputStream` that replays
  a byte array. Its state is a `ByteBuffer` position and a Java `long` rewind
  counter.
  - A pure layer describes a state by the bytes it will still deliver:
    `Available` of them, the k-th being `Upcoming(k)`. `Consume` is the state
    after n of them are delivered.
  - The class's `read()` and `read(b, off, len)` are proved against that layer.

Values (`ion_values.dfy`) are one class, `IonNode`. It has a type tag, a null
flag, a live child list, a container link, annotations, a field name and id,
a symbol table and the scalar payloads. Java exceptions are an
`Outcome<T> = Ok(value) | Thrown(error)` result. Java `byte` is the newtype
`int8`. Java `int` and `long` are the subset types `int32` and `int64`, and
their wrap-around is written out where the source relies on it: `len - off`,
and `remainder--`.

Behaviours of the code that the model keeps:

- **Lookahead and end flag survive `stepIn`.** There is one `_eof` for all
  levels, and `stepIn` resets neither it nor `_next`. So a value peeked by `hasNext()` before `stepIn` is
  returned by the first `next()` inside the child. Likewise, an end flag set at
  the enclosing level makes the child read as empty. `LookaheadLeaksIntoChild`
  and `EndFlagLeaksIntoChild` prove both effects for every reader in those
  states.
- **Which struct starts a local symbol table.** `handleLocalSymbolTable`
  starts a table only from a struct annotated `$ion_1_0`, not
  `$ion_symbol_table`. A struct annotated only `$ion_symbol_table` (what
  `valueIsStaticSymbolTable` tests for) starts nothing
  (`StaticTableStartsNoLocalTable`).
- **How many copies `RepeatInputStream` plays.** The constructor's comment
  calls `times` the number of repetitions. The stream plays the array
  `times + 1` times (`FreshStreamRepeats`).
- **`ION_1_0_SID` is taken to be 2.** SystemSymbolTableImpl is not part of
  this model. The value 2 is the id of `$ion_1_0` in the Ion 1.0 system symbol
  table.

## Model

| member | source | states |
|---|---|---|
| ReaderIterators.Children.constructor | src/com/amazon/ion/impl/IonReaderTreeSystem.java:507-522 | A new iterator starts at index 0 with no current child. A null container is at its end at once. Otherwise the children still to come are the container's whole child list. |
| ReaderIterators.Children.HasNext | src/com/amazon/ion/impl/IonReaderTreeSystem.java:524-550 | It answers whether children are left, and the sequence of children still to come is unchanged. If the list has shrunk below the last position, the iterator goes to its end. Requires the re-location loop to end: the child returned last is still at `_next_idx - 1`. |
| ReaderIterators.Children.Next | src/com/amazon/ion/impl/IonReaderTreeSystem.java:552-564 | It returns the first child still to come and drops it from that sequence. At the end it returns null and sets the end flag. The returned child becomes `_curr`, which keeps the iterator in step for the next re-location. |
| ReaderIterators.ArrayIterator.constructor | src/com/amazon/ion/impl/IonReaderTreeSystem.java:464-466 | A StringIterator or IdIterator starts at position 0 over the given array. |
| ReaderIterators.ArrayIterator.HasNext | src/com/amazon/ion/impl/IonReaderTreeSystem.java:467-469 | True exactly when the position is inside the array. This holds for both StringIterator and IdIterator. |
| ReaderIterators.ArrayIterator.Next | src/com/amazon/ion/impl/IonReaderTreeSystem.java:470-473 | It returns the element at the position and advances. Past the end it throws NoSuchElementException and leaves the position alone. |
| ReaderIterators.RelocationBody | src/com/amazon/ion/impl/IonReaderTreeSystem.java:538-543 | One pass of the loop as written keeps `ii`. It breaks out with `_next_idx = ii + 1` when the child at `ii` is the current one, and otherwise changes nothing. |
| ReaderIterators.RelocationAsWritten | src/com/amazon/ion/impl/IonReaderTreeSystem.java:535-543 | Any number of passes keeps `ii`. The loop has left only if the child at `ii` is the current one, with `_next_idx = ii + 1`. Otherwise the state is as it was on entry. |
| ReaderIterators.RelocationDiverges | src/com/amazon/ion/impl/IonReaderTreeSystem.java:538-543 | The loop as written never changes its index. When the child at `ii` is not the current one, any number of iterations leaves the loop state as it was. |
| ReaderIterators.RelocationExitsIff | src/com/amazon/ion/impl/IonReaderTreeSystem.java:535-543 | Entered with `ii < len`, the loop as written breaks out exactly when the child at `ii` is the current child. |
| ReaderIterators.RelocationScan | src/com/amazon/ion/impl/IonReaderTreeSystem.java:535-543 | The intended search finds the first index at or after `ii` that holds the current child, or reports that no such index exists. |
| ReaderIterators.RelocatedNextIdx | src/com/amazon/ion/impl/IonReaderTreeSystem.java:535-543 | The intended re-location puts `_next_idx` just past the current child. It is the list's length (end) when the child is gone. |
| ReaderIterators.RelocationAgreesWhenTerminating | src/com/amazon/ion/impl/IonReaderTreeSystem.java:535-543 | In every case where the loop as written ends, it yields the `_next_idx` that the intended search computes. |
| TreeReader.IonReaderTreeSystem.constructor | src/com/amazon/ion/impl/IonReaderTreeSystem.java:53-76 | Null gives an empty reader. A datagram becomes the parent, and its children are pending. Any other value is buffered as the lookahead. A container's root is found by following `_container` links to the top. |
| TreeReader.IonReaderTreeSystem.Push | src/com/amazon/ion/impl/IonReaderTreeSystem.java:84-94 | It appends the (parent, iterator) pair as a frame and keeps every earlier stack cell. It doubles the array exactly when `_top + 1 >= length`. `_top` stays even and within bounds. |
| TreeReader.IonReaderTreeSystem.Grow | src/com/amazon/ion/impl/IonReaderTreeSystem.java:86-91 | It allocates a fresh array twice as long and copies the old cells into it. Frames and fields are unchanged. |
| TreeReader.IonReaderTreeSystem.Pop | src/com/amazon/ion/impl/IonReaderTreeSystem.java:97-110 | It restores the parent and iterator of the last frame, drops that frame, nulls the two vacated cells and clears the end flag. |
| TreeReader.IonReaderTreeSystem.NextHelperSystem | src/com/amazon/ion/impl/IonReaderTreeSystem.java:140-153 | It reports the type of the first pending value and buffers that value in `_next`. With nothing pending it sets `_eof` and returns null. It has no effect once `_next` is buffered or `_eof` is set. The pending values never change. |
| TreeReader.IonReaderTreeSystem.HasNext | src/com/amazon/ion/impl/IonReaderTreeSystem.java:123-127 | True exactly when a value is pending, with that value buffered. Repeated calls after the first change nothing: `_next`, `_eof` and the iterator stay the same. |
| TreeReader.IonReaderTreeSystem.Next | src/com/amazon/ion/impl/IonReaderTreeSystem.java:129-138 | It returns the type of the first pending value, makes that value `_curr`, clears `_next` and drops the value from the pending sequence. The end flag stays clear after a value is returned, so a following stepIn reads the child. At the end it returns null, leaves `_curr` alone and sets `_eof`. |
| TreeReader.IonReaderTreeSystem.StepIn | src/com/amazon/ion/impl/IonReaderTreeSystem.java:155-164 | It throws IllegalStateException and changes nothing unless `_curr` is a container. Otherwise it pushes the old (parent, iterator) pair and makes `_curr` the parent. A fresh iterator holds its children, and `_curr` becomes null. `_next` and `_eof` are kept. |
| TreeReader.IonReaderTreeSystem.StepOut | src/com/amazon/ion/impl/IonReaderTreeSystem.java:166-172 | At depth 0 it throws IllegalStateException and changes nothing. Otherwise it restores exactly the last pushed pair, lowers the depth by one and clears `_eof`. |
| TreeReader.IonReaderTreeSystem.GetDepth | src/com/amazon/ion/impl/IonReaderTreeSystem.java:174-176 | `_top / 2` is the number of frames pushed by unmatched stepIn calls. |
| TreeReader.IonReaderTreeSystem.GetSymbolTable | src/com/amazon/ion/impl/IonReaderTreeSystem.java:202-214 | It returns the current value's symbol table. Without a current value it returns the parent's, and with neither it returns null. |
| TreeReader.IonReaderTreeSystem.GetType | src/com/amazon/ion/impl/IonReaderTreeSystem.java:216-219 | Null exactly when there is no current value, and otherwise that value's type. |
| TreeReader.IonReaderTreeSystem.GetTypeAnnotations | src/com/amazon/ion/impl/IonReaderTreeSystem.java:221-231 | It throws IllegalStateException exactly when there is no current value. Otherwise it returns that value's annotations. |
| TreeReader.IonReaderTreeSystem.GetTypeAnnotationIds | src/com/amazon/ion/impl/IonReaderTreeSystem.java:234-249 | No annotations give an empty array. Otherwise the result has one id per annotation, in order, each looked up in the current value's symbol table. A missing table is a NullPointerException. |
| TreeReader.IonReaderTreeSystem.IterateTypeAnnotationIds | src/com/amazon/ion/impl/IonReaderTreeSystem.java:253-260 | It returns an iterator at position 0 over exactly the ids of GetTypeAnnotationIds, and has the same exceptions. With at least one id the iterator is a new object. |
| TreeReader.IonReaderTreeSystem.IterateTypeAnnotations | src/com/amazon/ion/impl/IonReaderTreeSystem.java:263-268 | It returns an iterator at position 0 over the current value's annotations. Without a current value it throws IllegalStateException. |
| TreeReader.IonReaderTreeSystem.IsInStruct | src/com/amazon/ion/impl/IonReaderTreeSystem.java:271-274 | True exactly when the enclosing value is a struct. |
| TreeReader.IonReaderTreeSystem.IsNullValue | src/com/amazon/ion/impl/IonReaderTreeSystem.java:276-284 | An IonNull is null even before any other check. Without a current value it throws IllegalStateException. Otherwise it returns the value's null flag. |
| TreeReader.IonReaderTreeSystem.GetFieldId | src/com/amazon/ion/impl/IonReaderTreeSystem.java:286-290 | UNKNOWN_SID (-1) without a current value, and otherwise the value's field id. |
| TreeReader.IonReaderTreeSystem.GetFieldName | src/com/amazon/ion/impl/IonReaderTreeSystem.java:292-295 | Null without a current value, and otherwise the value's field name. |
| TreeReader.IonReaderTreeSystem.BooleanValue | src/com/amazon/ion/impl/IonReaderTreeSystem.java:298-305 | It succeeds exactly on a bool and returns its value. Any other type, or no value, throws IllegalStateException. |
| TreeReader.IonReaderTreeSystem.BigDecimalValue | src/com/amazon/ion/impl/IonReaderTreeSystem.java:346-352 | It succeeds exactly on a decimal and returns its value. Otherwise it throws IllegalStateException. |
| TreeReader.IonReaderTreeSystem.DecimalValue | src/com/amazon/ion/impl/IonReaderTreeSystem.java:354-360 | It behaves as BigDecimalValue, both on success and on exception. |
| TreeReader.IonReaderTreeSystem.TimestampValue | src/com/amazon/ion/impl/IonReaderTreeSystem.java:362-368 | It succeeds exactly on a timestamp and returns its value. Otherwise it throws IllegalStateException. |
| TreeReader.IonReaderTreeSystem.DateValue | src/com/amazon/ion/impl/IonReaderTreeSystem.java:370-376 | It succeeds exactly when TimestampValue does, and gives the instant of that timestamp. |
| TreeReader.IonReaderTreeSystem.StringValue | src/com/amazon/ion/impl/IonReaderTreeSystem.java:378-385 | Null without a current value. For a string or symbol it returns the text. Any other type throws IllegalStateException. |
| TreeReader.IonReaderTreeSystem.GetSymbolId | src/com/amazon/ion/impl/IonReaderTreeSystem.java:387-394 | -1 without a current value. For a symbol it returns its id. Any other type throws IllegalStateException. |
| TreeReader.IonReaderTreeSystem.ByteSize | src/com/amazon/ion/impl/IonReaderTreeSystem.java:396-403 | It succeeds exactly on a blob or clob and returns its length. Otherwise it throws IllegalStateException. |
| TreeReader.IonReaderTreeSystem.GetBytes | src/com/amazon/ion/impl/IonReaderTreeSystem.java:426-447 | A non-lob throws IllegalStateException. A lob longer than `len` throws IllegalArgumentException. Otherwise it returns the lob's length: it succeeds exactly when ByteSize succeeds with a size of at most `len`. |
| TreeReader.ReadSingleValue | src/com/amazon/ion/impl/IonReaderTreeSystem.java:53-76 | On a reader built on one non-datagram value, before next() there is no type, and isNullValue and stepIn throw. Then next() yields that value once, and null from then on. |
| TreeReader.ReadDatagram | src/com/amazon/ion/impl/IonReaderTreeSystem.java:60-65 | Reading a datagram to its end yields its children, each once and in list order. A null datagram yields none. |
| TreeReader.LookaheadLeaksIntoChild | src/com/amazon/ion/impl/IonReaderTreeSystem.java:155-164 | With a lookahead buffered, stepIn succeeds and deepens by one, but the next next() returns the buffered sibling, not a child. |
| TreeReader.EndFlagLeaksIntoChild | src/com/amazon/ion/impl/IonReaderTreeSystem.java:155-164 | With the end flag set, stepIn into a container succeeds, but next() returns null whatever the container holds. |
| TreeReader.NextStepInNext | src/com/amazon/ion/impl/IonReaderTreeSystem.java:129-164 | next() onto a container, then stepIn(), then next() returns the container's first child one level deeper. An empty or null container reads as its end. |
| TreeReader.StepOutResumesParent | src/com/amazon/ion/impl/IonReaderTreeSystem.java:97-110 | A matched stepIn / next / stepOut restores the depth, parent and iterator. The values still pending at the enclosing level are the same as before stepIn. |
| IonSystem.ValueIsSystemId | src/com/amazon/ion/impl/IonSystemImpl.java:288-302 | Only a non-null symbol value can be the system id. It is the system id when its id is `ION_1_0_SID`, or when it has no positive id and its text is `$ion_1_0`. |
| IonSystem.ValueIsStaticSymbolTable | src/com/amazon/ion/impl/IonSystemImpl.java:304-308 | Only a struct annotated `$ion_symbol_table` is a static table definition, and it is never the system id. |
| IonSystem.LocalTableRule | src/com/amazon/ion/impl/IonSystemImpl.java:310-333 | A table is built from a struct exactly when the struct is annotated `$ion_1_0`. An empty table over the system table is built exactly for a system-id symbol. Everything else builds nothing. |
| IonSystem.SystemIdIgnoresTextWhenSidKnown | src/com/amazon/ion/impl/IonSystemImpl.java:288-302 | For a symbol with a positive id, only `sid == ION_1_0_SID` decides. Two symbols that differ only in text are judged alike. |
| IonSystem.SystemIdByText | src/com/amazon/ion/impl/IonSystemImpl.java:294-299 | A symbol whose text is `$ion_1_0` is the system id exactly when it has no positive id, or that id is `ION_1_0_SID`. |
| IonSystem.StaticTableStartsNoLocalTable | src/com/amazon/ion/impl/IonSystemImpl.java:304-308 | A static table definition is never the system id. Unless it is also annotated `$ion_1_0`, it starts no local table. |
| IonSystem.OnlyStructsAndSymbolsStartTables | src/com/amazon/ion/impl/IonSystemImpl.java:310-333 | Null, and any value that is neither a struct nor a symbol, never starts a local table. |
| IonSystem.IonSystemImpl.constructor | src/com/amazon/ion/impl/IonSystemImpl.java:59-62 | The no-argument system gets a new system table, a new catalog and a new loader. |
| IonSystem.IonSystemImpl.WithCatalog | src/com/amazon/ion/impl/IonSystemImpl.java:64-67 | The system takes the given catalog as is (null included), with a new system table and a new loader. |
| IonSystem.IonSystemImpl.SystemSymbolTable | src/com/amazon/ion/impl/IonSystemImpl.java:70-73 | It returns the system's one system symbol table. |
| IonSystem.IonSystemImpl.GetSystemSymbolTable | src/com/amazon/ion/impl/IonSystemImpl.java:75-84 | It returns the one system table exactly when the id is `$ion_1_0`. Every other id throws UnsupportedSystemVersionException carrying that id. |
| IonSystem.IonSystemImpl.SetCatalog | src/com/amazon/ion/impl/IonSystemImpl.java:93-97 | Null throws NullPointerException and keeps the old catalog. Anything else replaces it. The loader is untouched. |
| IonSystem.IonSystemImpl.SetLoader | src/com/amazon/ion/impl/IonSystemImpl.java:145-149 | Null throws NullPointerException and keeps the old loader. Anything else replaces it. The catalog is untouched. |
| IonSystem.IonSystemImpl.HandleLocalSymbolTable | src/com/amazon/ion/impl/IonSystemImpl.java:310-333 | It returns null exactly when LocalTableRule says no table. From a `$ion_1_0` struct it builds a new table with the caller's catalog and that struct. For the system-id symbol it builds a new empty table. Both are chained to the system table. |
| IonSystem.IonSystemImpl.SingleValue | src/com/amazon/ion/impl/IonSystemImpl.java:339-358 | It returns the value exactly when the reader holds exactly one. Zero values, or two or more, throw "not a single value". The reader is closed on every path. |
| IonSystem.IonSystemImpl.NewInt | src/com/amazon/ion/impl/IonSystemImpl.java:474-486 | It returns a new, non-null int value holding the content. |
| IonSystem.IonSystemImpl.NewInts | src/com/amazon/ion/impl/IonSystemImpl.java:730-762 | Null maps to null. Otherwise the list has the array's length, and its i-th element is a new, distinct int holding `elements[i]`. |
| RepeatStream.RequestedAsWritten | test/com/amazon/ion/util/RepeatInputStream.java:65 | The count requested is the Java `int` `len - off`, wrapped to 32 bits. It is exact whenever the difference fits. |
| RepeatStream.LongDecrement | test/com/amazon/ion/util/RepeatInputStream.java:39 | `remainder--` on a `long`: LONG_MIN wraps to LONG_MAX. Every decrement of a non-zero counter leaves one rewind fewer. |
| RepeatStream.Octet | test/com/amazon/ion/util/RepeatInputStream.java:52 | `b & 0xFF` is in 0..255. It equals the byte when the byte is non-negative, and byte + 256 otherwise. |
| RepeatStream.Initial | test/com/amazon/ion/util/RepeatInputStream.java:25-31 | A new stream starts at position 0 with `times` rewinds. |
| RepeatStream.CheckBufState | test/com/amazon/ion/util/RepeatInputStream.java:37-42 | With the buffer used up and the stream not done, the position rewinds to 0 and exactly one rewind is spent. In every other state nothing changes. |
| RepeatStream.DoneIffNothingAvailable | test/com/amazon/ion/util/RepeatInputStream.java:33-35 | Over a non-empty array, isDone holds exactly when no byte is still to come. |
| RepeatStream.StepAdvances | test/com/amazon/ion/util/RepeatInputStream.java:52-53 | Taking one byte and then running checkBuf leaves one byte fewer to come. The remaining bytes come in the same order. |
| RepeatStream.Consume | test/com/amazon/ion/util/RepeatInputStream.java:52-53 | After n bytes are delivered, n fewer are left. What comes next is what came n bytes later before. |
| RepeatStream.ConsumeAdds | test/com/amazon/ion/util/RepeatInputStream.java:67-75 | Delivering m bytes and then n more reaches the same state as delivering m + n at once. |
| RepeatStream.ConsumeRun | test/com/amazon/ion/util/RepeatInputStream.java:69-74 | A run that stays within the buffer, then one checkBuf, is the same as delivering that many bytes one by one. |
| RepeatStream.ReadStep | test/com/amazon/ion/util/RepeatInputStream.java:45-55 | Once done, read() returns -1 and keeps the state. An empty array with rewinds left throws BufferUnderflowException. Any other result is an octet in 0..255. |
| RepeatStream.ReadStepDelivers | test/com/amazon/ion/util/RepeatInputStream.java:45-55 | Over a non-empty array, read() returns the next byte to come as an octet and moves on by one byte. With nothing left it returns -1. |
| RepeatStream.ReadAllDelivers | test/com/amazon/ion/util/RepeatInputStream.java:45-55 | Successive read() calls return exactly the bytes still to come, in order, then -1 forever. |
| RepeatStream.FreshStreamRepeats | test/com/amazon/ion/util/RepeatInputStream.java:21-31 | A new stream over L > 0 bytes with `times` >= 0 returns `bytes[k mod L]` as its k-th byte for (times + 1) * L bytes, then -1. |
| RepeatStream.EmptyBytes | test/com/amazon/ion/util/RepeatInputStream.java:52 | Over an empty array, the first read() throws BufferUnderflowException when rewinds are left, and returns -1 when none are. |
| RepeatStream.ReadIntoCount | test/com/amazon/ion/util/RepeatInputStream.java:58-77 | read(b, off, len) returns -1 exactly when done. Otherwise it returns at most the bytes still to come and at most `len - off`. |
| RepeatStream.IntendedReadCount | test/com/amazon/ion/util/RepeatInputStream.java:58-77 | Under InputStream's contract, a request for 0 bytes returns 0, and a stream at its end returns -1. Otherwise, over a non-empty array, it returns between 1 and `len`, and no more than the bytes still to come. |
| RepeatStream.ReadIntoCountsFromOffset | test/com/amazon/ion/util/RepeatInputStream.java:65 | read(b, 4, 4) on a new one-byte stream returns 0 as written, where the contract asks for 1. |
| RepeatStream.RepeatInputStream.constructor | test/com/amazon/ion/util/RepeatInputStream.java:25-31 | A new stream is in the initial state, and that state is valid. |
| RepeatStream.RepeatInputStream.IsDone | test/com/amazon/ion/util/RepeatInputStream.java:33-35 | True exactly when no rewind is left and the buffer has no bytes remaining. |
| RepeatStream.RepeatInputStream.CheckBuf | test/com/amazon/ion/util/RepeatInputStream.java:37-42 | It moves the state as CheckBufState says. A stream built with `times` >= 0 keeps `0 <= remainder <= times`, so the counter never goes negative. |
| RepeatStream.RepeatInputStream.Read | test/com/amazon/ion/util/RepeatInputStream.java:44-55 | It returns the result that ReadStep gives and leaves the state that ReadStep gives. |
| RepeatStream.RepeatInputStream.CopyRun | test/com/amazon/ion/util/RepeatInputStream.java:69-74 | One loop pass copies the next `amount` bytes to come into `b[off..off+amount)`, leaves every other cell alone, and advances the state by `amount` bytes. |
| RepeatStream.RepeatInputStream.Transfer | test/com/amazon/ion/util/RepeatInputStream.java:65-77 | The loop copies min(requested, still to come) bytes into consecutive cells from `off` on and advances the state by that many. The first run that does not fit in `b` throws IndexOutOfBoundsException and keeps what was already copied. |
| RepeatStream.RepeatInputStream.ReadInto | test/com/amazon/ion/util/RepeatInputStream.java:57-77 | Once done it returns -1. With `len - off <= 0` it returns 0. In both cases nothing changes. Otherwise it behaves as Transfer with `len - off` bytes requested. |
| RepeatStream.RepeatInputStream.ReadIntoIntended | test/com/amazon/ion/util/RepeatInputStream.java:57-77 | The corrected call checks the bounds first, so it throws exactly when they are violated. It returns IntendedReadCount and copies that many bytes from `off` on. A request for 0 bytes, or a call at the end, changes neither the stream nor `b`. |

## Left out

- Floating point, `intValue`/`longValue`/`doubleValue` and their conversions
  from float and decimal are not modelled. `IonFloatLite` and `IonClobLite`
  (IEEE doubles, charset decoding) are not part of this model.
- `newBytes`, and the lob input stream that `getBytes` reads from, are not
  modelled. `GetBytes` keeps only the type and length checks.
- `XXXposition` is private and unused. `getIterationType`, `getSystem`,
  `set_symbol_table`, `getIonValue` and `valueToString` are trivial getters or
  printing. None of them is modelled.
- TreeReader.IonReaderTreeSystem.IterateTypeAnnotationIds: with no ids the
  reader returns the shared `EMPTY_ITERATOR`. The model returns a new empty
  iterator and makes no identity promise for that case.
- `Decimal` is a coefficient and a scale, which cannot hold negative zero.
  The difference between Ion's `Decimal` and `BigDecimal` is therefore not
  modelled, and `DecimalValue` returns the same value as `BigDecimalValue`.
- Timestamps are modelled by their instant only. Their local offset and
  precision are not modelled.
- The `remove()` methods of the three iterators are not modelled. Each only
  throws UnsupportedOperationException.
- `Children` is not modelled for containers that are not IonContainerImpl
  (the UnsupportedOperationException branch) or for `makeReady`. Every
  container here is an IonContainerImpl whose children are materialised.
- ReaderIterators.Children.HasNext: it is modelled only for calls where the
  re-location loop ends (precondition `RelocationTerminates`). The other calls
  never return in the source. They are modelled by `RelocationAsWritten` and
  `RelocationDiverges`.
- TreeReader.IonReaderTreeSystem.Next: `Pending()` describes what will be
  returned only while the tree is not edited. Edits during a traversal are
  handled by `Children`'s re-location, not by the cursor's contract.
- IonSystem.IonSystemImpl.GetSystemSymbolTable: a null system id, which makes
  `equals` throw NullPointerException, is not modelled. Strings here are never
  null.
- `IonSystemImpl`'s value factories (`newNull*`, `new*`, `newDatagram`,
  `newList`, `newSexp`, `newEmptyStruct`, timestamps) are not modelled. Neither
  are `clone`, the reader factories, `newLocalSymbolTable`,
  `newStaticSymbolTable` and the synchronized getters. They wrap value classes,
  printers and I/O that are not part of this model. `newInt` is kept because
  `newInts` uses it.
- The local symbol tables that `handleLocalSymbolTable` builds are modelled by
  identity only: their system table, catalog and defining struct. Symbol
  resolution inside them is not modelled.
- IonSystem.IonSystemImpl.NewInts: `int[]` and `long[]` are one method over
  unbounded integers, because each element only becomes the payload of a new
  int value.
- RepeatStream.RepeatInputStream.Transfer: when an IndexOutOfBoundsException
  stops the loop, the contract says only that some prefix of the requested
  bytes, of length `written`, was copied and consumed. It does not say which
  run boundary the prefix ends at.
- RepeatInputStream keeps a reference to the caller's array. The model copies
  it into an immutable sequence, so later writes to that array by the caller
  are not modelled. A null `b` (NullPointerException) is not modelled either,
  and neither is a null `bytes` argument to the constructor (NullPointerException
  from `ByteBuffer.wrap`).
- `ReaderOctetSpanTest` is not modelled. Its byte-span assertions are about
  binary readers that are not part of this model.

## Findings

| source | as written | input that shows it | evidently intended | confidence | as-written member | corrected member |
|---|---|---|---|---|---|---|
| src/com/amazon/ion/impl/IonReaderTreeSystem.java:538-543 | The re-location loop in `Children.hasNext` never advances `ii`. If the child returned last is not at `_next_idx - 1`, the loop spins forever. | A container whose child list gained a value in front of the current child between two `next()` calls. | Scan forward from `_next_idx - 1` for the current child, and go to the end when it is gone. | not executed | ReaderIterators.RelocationDiverges | ReaderIterators.RelocatedNextIdx |
| test/com/amazon/ion/util/RepeatInputStream.java:65 | `read(b, off, len)` asks for `len - off` bytes. It treats `len` as an end index, although InputStream defines it as a count. | `read(b, 4, 4)` with `b.length >= 8`, on a new stream over one byte, returns 0 instead of 1. | Check the bounds, then read up to `len` bytes, returning at least one unless the stream is at its end. | not executed | RepeatStream.ReadIntoCountsFromOffset | RepeatStream.RepeatInputStream.ReadIntoIntended |
