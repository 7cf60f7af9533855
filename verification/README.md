# LineMetaInfo in Dafny

A model of `LineMetaInfo`, the per-line metadata store of the vai editor. The
store holds one optional, opaque payload per line of a host document, such as a
syntax-highlight state, a diagnostic or a breakpoint. The document calls
`addLines` and `deleteLines` to keep the store aligned with its own lines.
Every mutation fires a change signal. Single-line snapshots ("mementos") let an
undo manager put a line's payload back.

- `slots.dfy`, module `Slots`: the sequence algebra. `Option` is the slot type.
  `Insert` and `Pop` are a list's `insert` and `pop`. Each mutator has a
  specification function that mirrors the source's loop: `AddedLines` inserts
  one empty slot at a time, `DeletedLines` pops one slot at a time,
  `WrittenFrom` writes one value at a time and stops at the end of the list,
  and `WithEntries` is a keyed write. Lemmas give the closed forms and the
  index-by-index properties, and connect the operations to each other.
  Positions here are 0-based.
- `line_meta_info.dfy`, module `LineMeta`: class `LineMetaInfo<T>` has
  `data: seq<Option<T>>` and a ghost `notifyCount`.
  - `AddLines`, `DeleteLines`, `SetData` and `SetDataForLines` are methods
    whose loops do what the source's loops do. Each is proved to leave `data`
    equal to its `Slots` function of the old contents.
  - `Clear`, `InsertFromMemento` and `ReplaceFromMemento` have no loop. Each
    states its new `data` outright.
  - Every mutator raises `notifyCount` by exactly one.
  - The queries (`NumLines`, `Data`, `DataRange`, `NotNoneData`,
    `DataForIndexes`, `Memento`) are functions reading `this`. The mutators
    state their effect on `NumLines()`.
  - Two client methods chain snapshot, change and restore. Both show that the
    store ends as it began.

Lines are 1-based in every public operation and stored at position `line - 1`.
The document is not modelled. Only its line count is read: the constructor and
`Clear` take it as the parameter `docLines`. `copy.deepcopy` is the identity
because payloads are immutable Dafny values. So a memento cannot be changed
through the store, and the store cannot be changed through a memento.

At the edges the model follows the code of `LineMetaInfo.py`:
- `data(line, n)` clips an overlong span at the last line; it does not raise.
- Line numbers outside `[1, numLines()]` in `data`, `setDataForLines`,
  `dataForIndexes`, `memento` and `replaceFromMemento` never yield a named
  error. Lines `1 - numLines()` to `0` count from the end of the list, with
  line 0 the last slot. Lines above the last line, or below `1 - numLines()`,
  raise Python's `IndexError`. The model makes `[1, NumLines()]` a
  precondition.
- In particular `dataForIndexes` never skips an out-of-range line and never
  gives it a placeholder entry. Such a line either raises or is read from the
  end.
- `from_line` defaults to 1 in both `setData` and `data`. `SetData`, `Data`
  and `DataRange` carry the same default.

## Model

| member | source | states |
|---|---|---|
| `LineMeta.LineMetaInfo.constructor` | vai/models/LineMetaInfo.py:10-15 | a new store has exactly `docLines` slots, all empty, and no signal has fired |
| `LineMeta.LineMetaInfo.NumLines` | vai/models/LineMetaInfo.py:17-18 | the number of slots: reading that many lines from line 1 returns every slot, and a read just past them is empty; each mutator's ensures states how it changes |
| `LineMeta.LineMetaInfo.NotifyObservers` | vai/models/LineMetaInfo.py:67-68 | firing the signal raises the counter by one and changes no slot |
| `Slots.AddedLines` | vai/models/LineMetaInfo.py:21-23 | inserting `n` empty slots one by one makes the list exactly `n` longer |
| `Slots.AddedLinesShape` | vai/models/LineMetaInfo.py:21-23 | `n` insertions at one position are the old prefix, then `n` empty slots, then the old suffix |
| `Slots.AddedLinesAt` | vai/models/LineMetaInfo.py:21-23 | after adding `n` lines the length grows by `n`; slots before the position are unchanged; the new slots are empty; old slot `j` from the position on is now at `j + n` |
| `LineMeta.LineMetaInfo.AddLines` | vai/models/LineMetaInfo.py:21-24 | the loop of inserts leaves `data` equal to `AddedLines` of the old slots; a count of zero or less changes nothing, whatever the line; the line count grows by the count; the signal fires once |
| `Slots.DeletedLines` | vai/models/LineMetaInfo.py:27-29 | popping `n` times at one position makes the list exactly `n` shorter |
| `Slots.DeletedLinesShape` | vai/models/LineMetaInfo.py:27-29 | `n` pops at one position leave the old prefix followed by the old suffix after the deleted block |
| `Slots.DeletedLinesAt` | vai/models/LineMetaInfo.py:27-29 | after deleting `n` lines the length shrinks by `n`; slots before the position are unchanged; the slots after the block keep their order, moved down by `n` |
| `LineMeta.LineMetaInfo.DeleteLines` | vai/models/LineMetaInfo.py:27-30 | the loop of pops leaves `data` equal to `DeletedLines` of the old slots; a count of zero or less changes nothing, whatever the line; the line count shrinks by the count; the signal fires once |
| `Slots.DeleteUndoesAdd` | vai/models/LineMetaInfo.py:21-29 | deleting the lines just added at the same line gives back the original slots |
| `LineMeta.SetDataArg.AsRun` | vai/models/LineMetaInfo.py:34-35 | a lone value (which includes a string) is written as a one-element run; a sequence is written as it is |
| `Slots.WrittenFrom` | vai/models/LineMetaInfo.py:37-41 | a run write never changes the number of slots |
| `Slots.WrittenFromAt` | vai/models/LineMetaInfo.py:37-41 | slot `j` receives `vals[j - at]` exactly when `j - at` is an index of `vals` and slot `j` exists; values past the end are dropped without error; every other slot is unchanged |
| `LineMeta.LineMetaInfo.SetData` | vai/models/LineMetaInfo.py:32-43 | the write loop leaves `data` equal to `WrittenFrom` of the old slots from `fromLine - 1`, stopping silently at the last line; the length is kept; the signal fires once, even when nothing was written |
| `LineMeta.LineMetaInfo.SetDataForLines` | vai/models/LineMetaInfo.py:45-49 | after the loop over the keys, slot `k` holds `d[k]` for every key and every other slot is unchanged (`WithEntries`); the length is kept; the signal fires once |
| `Slots.SingleSlotWritesAgree` | vai/models/LineMetaInfo.py:45-47 | a one-entry keyed write, a one-value run write and a direct replacement of one slot give the same slots |
| `LineMeta.LineMetaInfo.Data` | vai/models/LineMetaInfo.py:51-53 | reading one line agrees with a one-line range read at that line |
| `LineMeta.LineMetaInfo.DataRange` | vai/models/LineMetaInfo.py:51-55 | a range read returns the slots from `fromLine` on, in order; its length is `howMany` clipped at the last line, and it is empty when `fromLine` is past the end |
| `LineMeta.LineMetaInfo.NotNoneData` | vai/models/LineMetaInfo.py:57-58 | line `k` is a key exactly when it exists and its slot holds a payload, and the key maps to that payload |
| `LineMeta.LineMetaInfo.DataForIndexes` | vai/models/LineMetaInfo.py:60-61 | the key set is exactly the requested lines, and each maps to that line's slot |
| `LineMeta.LineMetaInfo.Clear` | vai/models/LineMetaInfo.py:63-65 | afterwards the store has exactly `docLines` slots, all empty, and no line has data; the signal fires once |
| `LineMeta.LineMetaInfo.Memento` | vai/models/LineMetaInfo.py:78-79 | a memento equals the slot's current payload |
| `LineMeta.LineMetaInfo.InsertFromMemento` | vai/models/LineMetaInfo.py:81-83 | the memento becomes line `line`; earlier slots stay and later slots move up by one; the signal fires once |
| `LineMeta.LineMetaInfo.ReplaceFromMemento` | vai/models/LineMetaInfo.py:85-87 | only slot `line` changes, to the memento; the length is kept; the signal fires once |
| `Slots.ReinsertUndoesDelete` | vai/models/LineMetaInfo.py:78-83 | deleting one line and then inserting its memento at the same line restores the original slots |
| `LineMeta.UndoLineDeletion` | vai/models/LineMetaInfo.py:78-83 | memento, then `DeleteLines(line, 1)`, then `InsertFromMemento` leaves the store as it was, with two signals fired |
| `LineMeta.UndoLineEdit` | vai/models/LineMetaInfo.py:78-87 | memento, then overwriting the line, then `ReplaceFromMemento` leaves the store as it was, with two signals fired; the returned memento equals the line's original payload even after the overwrite |

## Left out

- The change signal (`core.VSignal`, `contentChanged.emit()`) and its observers belong to a foreign library. The model only counts emissions in the ghost `notifyCount`.
- The `meta_type` and `document` properties are trivial getters and are not modelled. The kind tag is not stored at all.
- The document object is not part of this model. Its `numLines()` is passed to the constructor and to `Clear` as `docLines`.
- `copy.deepcopy` is the identity on immutable Dafny values. Aliasing between a memento and a live payload cannot arise in the model.
- The runtime `isinstance(..., collections.Iterable)` dispatch is modelled as the `SetDataArg` datatype. Other iterables (dicts, sets, generators) are not modelled; only a sequence of slot values is.
- `LineMeta.LineMetaInfo.AddLines` requires `1 <= line <= NumLines() + 1` when `howMany > 0`. None of the following is modelled. For a line past the end, Python's `list.insert` appends. Lines `1 - NumLines()` to `0` count from the end, so line 0 inserts before the last slot. Lower lines insert at the front.
- `LineMeta.LineMetaInfo.DeleteLines` requires the whole deleted block to lie inside the store when `howMany > 0`. None of the following is modelled. In the source, a block that starts at an existing line and runs past the end pops the slots from that line to the end, then raises `IndexError`. A line above the last line raises `IndexError` before any pop. Lines `1 - NumLines()` to `0` pop leftward from the slot counted from the end, so line 0 pops the last slot. When the block runs past line 1, they raise `IndexError` after the earlier pops: with 3 slots `[a, b, c]`, line 0 and a count of 4 pop `c`, `b` and `a`, then raise. Lines below `1 - NumLines()` raise `IndexError` before any pop. A call that raises fires no signal.
- `LineMeta.LineMetaInfo.SetData` requires `fromLine >= 1`. Smaller values are not modelled. With `fromLine <= -NumLines()`, the first write raises `IndexError`. The source swallows that error, so nothing is written and the signal still fires. With `1 - NumLines() <= fromLine <= 0`, the writes start counted from the end of the list. They then continue from slot 1 up to the last slot, so a later value can overwrite an earlier one. With 3 slots, `fromLine = 0` and the values `[x, y, z, w, v]`, the slots become `[y, z, w]`.
- `LineMeta.LineMetaInfo.SetDataForLines` requires every key in `[1, NumLines()]`. In the source, keys `1 - NumLines()` to `0` count from the end, with key 0 the last slot. A key above the last line, or below `1 - NumLines()`, raises `IndexError` after the earlier keys were written.
- `LineMeta.LineMetaInfo.Data`, `LineMeta.LineMetaInfo.Memento` and `LineMeta.LineMetaInfo.ReplaceFromMemento` require `1 <= line <= NumLines()`. In Python, lines `1 - NumLines()` to `0` read or write from the end of the list, with line 0 the last slot. Lower lines raise `IndexError`, and so does line 0 on an empty store.
- `LineMeta.LineMetaInfo.DataRange` requires `fromLine >= 1` and `howMany >= 0`. For other values Python's slice counts from the end of the list and is clipped; it never raises. `data(how_many=n)` is `DataRange(howMany := n)`.
- `LineMeta.LineMetaInfo.DataForIndexes` requires every requested line in `[1, NumLines()]`. In the source, lines `1 - NumLines()` to `0` are read from the end of the list. Lines above the last line, or below `1 - NumLines()`, raise `IndexError`.
- `LineMeta.LineMetaInfo.InsertFromMemento` requires `1 <= line <= NumLines() + 1`. As with `AddLines`, these cases are not modelled: appending for a line past the end, counting from the end for lines `1 - NumLines()` to `0`, and inserting at the front for lower lines.
- The central invariant, "the number of slots equals the document's line count", depends on the document calling the hooks. The model states how each hook changes `NumLines()`; the document side is not modelled.
