/**
  The per-line metadata store: one optional, opaque payload per line of a
  host document, kept aligned with the document's lines as they are added and
  deleted, with snapshot ("memento") and restore primitives for undo.

  Lines are numbered from 1 in every operation; slot `line` is held at
  position `line - 1` of `data`. The observer signal is modelled by the ghost
  counter `notifyCount`, which every mutator raises by exactly one after its
  change to `data` is complete.
 */
module LineMeta {
  import opened Slots

  /** The argument of `SetData`: a lone value, or a sequence of values. */
  datatype SetDataArg<T> = Single(value: Option<T>) | Many(values: seq<Option<T>>)
  {
    /** The values to write, in order: a lone value is a one-element run. */
    function AsRun(): (r: seq<Option<T>>)
      ensures Single? ==> r == [value]
      ensures Many? ==> r == values
    {
      match this
      case Single(v) => [v]
      case Many(vs) => vs
    }
  }

  class LineMetaInfo<T> {
    /** The slots, one per document line, position `line - 1` for line `line`. */
    var data: seq<Option<T>>
    /** How many times the change signal has fired. */
    ghost var notifyCount: nat

    /** A store for a document of `docLines` lines: every slot empty. */
    constructor (docLines: nat)
      ensures |data| == docLines
      ensures forall j :: 0 <= j < |data| ==> data[j] == None
      ensures notifyCount == 0
    {
      data := Blank(docLines);
      notifyCount := 0;
    }

    /**
      The number of lines the store tracks: a range read of that many lines
      from line 1 returns every slot, and nothing lies beyond them.
     */
    function NumLines(): (n: nat)
      reads this
      ensures DataRange(1, n) == data
      ensures DataRange(n + 1, 1) == []
    {
      |data|
    }

    /** Fires the change signal: nothing about the slots changes. */
    method NotifyObservers()
      modifies this
      ensures data == old(data)
      ensures notifyCount == old(notifyCount) + 1
    {
      notifyCount := notifyCount + 1;
    }

    /**
      Called by the document after it inserted `howMany` lines before `line`:
      the same number of empty slots is inserted there. A count of zero or
      less inserts nothing, whatever the line.
     */
    method AddLines(line: int, howMany: int)
      requires howMany <= 0 || 1 <= line <= |data| + 1
      modifies this
      ensures data == if howMany <= 0 then old(data) else AddedLines(old(data), line - 1, howMany)
      ensures NumLines() == old(NumLines()) + RangeLength(howMany)
      ensures notifyCount == old(notifyCount) + 1
    {
      var i := 0;
      while i < howMany
        invariant 0 <= i <= RangeLength(howMany)
        invariant data == if i == 0 then old(data) else AddedLines(old(data), line - 1, i)
        invariant notifyCount == old(notifyCount)
      {
        data := Insert(data, line - 1, None);
        i := i + 1;
      }
      NotifyObservers();
    }

    /**
      Called by the document after it deleted `howMany` lines from `line` on:
      the same slots are removed and the later ones move down. A count of
      zero or less removes nothing, whatever the line.
     */
    method DeleteLines(line: int, howMany: int)
      requires howMany <= 0 || (1 <= line && line - 1 + howMany <= |data|)
      modifies this
      ensures data == if howMany <= 0 then old(data) else DeletedLines(old(data), line - 1, howMany)
      ensures NumLines() == old(NumLines()) - RangeLength(howMany)
      ensures notifyCount == old(notifyCount) + 1
    {
      var i := 0;
      while i < howMany
        invariant 0 <= i <= RangeLength(howMany)
        invariant data == if i == 0 then old(data) else DeletedLines(old(data), line - 1, i)
        invariant notifyCount == old(notifyCount)
      {
        data := Pop(data, line - 1);
        i := i + 1;
      }
      NotifyObservers();
    }

    /**
      Writes the values of `arg` to lines `fromLine`, `fromLine + 1`, ...,
      dropping without error those that would land past the last line.
     */
    method SetData(arg: SetDataArg<T>, fromLine: int := 1)
      requires fromLine >= 1
      modifies this
      ensures data == WrittenFrom(old(data), fromLine - 1, arg.AsRun())
      ensures NumLines() == old(NumLines())
      ensures notifyCount == old(notifyCount) + 1
    {
      var run := arg.AsRun();
      var idx := 0;
      while idx < |run| && fromLine - 1 + idx < |data|
        invariant 0 <= idx <= |run|
        invariant |data| == |old(data)|
        invariant WrittenFrom(data, fromLine - 1 + idx, run[idx..]) == WrittenFrom(old(data), fromLine - 1, run)
        invariant notifyCount == old(notifyCount)
      {
        data := data[fromLine - 1 + idx := run[idx]];
        idx := idx + 1;
      }
      NotifyObservers();
    }

    /** Writes `d[k]` to line `k` for every key `k` of `d`. */
    method SetDataForLines(d: map<int, Option<T>>)
      requires forall k :: k in d ==> 1 <= k <= |data|
      modifies this
      ensures data == WithEntries(old(data), d)
      ensures NumLines() == old(NumLines())
      ensures notifyCount == old(notifyCount) + 1
    {
      var pending := d.Keys;
      while pending != {}
        invariant pending <= d.Keys
        invariant |data| == |old(data)|
        invariant forall j :: 0 <= j < |data| ==>
          data[j] == if j + 1 in d && j + 1 !in pending then d[j + 1] else old(data)[j]
        invariant notifyCount == old(notifyCount)
        decreases pending
      {
        if forall k :: k !in pending {
          assert false;  // a non-empty set has a member
        }
        var k :| k in pending;
        data := data[k - 1 := d[k]];
        pending := pending - {k};
      }
      NotifyObservers();
    }

    /** The payload of line `line`, `None` when the line has none. */
    function Data(line: int := 1): (r: Option<T>)
      reads this
      requires 1 <= line <= |data|
      ensures DataRange(line, 1) == [r]
    {
      data[line - 1]
    }

    /**
      The slots of lines `fromLine` .. `fromLine + howMany - 1`, in order,
      clipped at the last line; a span reaching past the end is not an error.
     */
    function DataRange(fromLine: int := 1, howMany: int): (r: seq<Option<T>>)
      reads this
      requires fromLine >= 1 && howMany >= 0
      ensures |r| == if fromLine - 1 >= |data| then 0
                     else if fromLine - 1 + howMany <= |data| then howMany
                     else |data| - (fromLine - 1)
      ensures forall i :: 0 <= i < |r| ==> r[i] == data[fromLine - 1 + i]
    {
      var lo := if fromLine - 1 <= |data| then fromLine - 1 else |data|;
      var hi := if fromLine - 1 + howMany <= |data| then fromLine - 1 + howMany else |data|;
      data[lo..hi]
    }

    /** Every line that holds a payload, mapped to that payload. */
    function NotNoneData(): (m: map<int, T>)
      reads this
      ensures forall k :: k in m <==> 1 <= k <= |data| && Data(k).Some?
      ensures forall k :: k in m ==> Data(k) == Some(m[k])
    {
      map k | 1 <= k <= |data| && Data(k).Some? :: Data(k).value
    }

    /** The slot of each line in `indexes`, keyed by line. */
    function DataForIndexes(indexes: set<int>): (m: map<int, Option<T>>)
      reads this
      requires forall i :: i in indexes ==> 1 <= i <= |data|
      ensures m.Keys == indexes
      ensures forall i :: i in indexes ==> m[i] == Data(i)
    {
      map i | i in indexes :: data[i - 1]
    }

    /**
      Empties the store and re-synchronises its length with the document,
      which now has `docLines` lines.
     */
    method Clear(docLines: nat)
      modifies this
      ensures |data| == docLines
      ensures forall j :: 0 <= j < |data| ==> data[j] == None
      ensures NotNoneData() == map[]
      ensures notifyCount == old(notifyCount) + 1
    {
      data := Blank(docLines);
      NotifyObservers();
    }

    /**
      A snapshot of line `line`'s slot. Payloads are values, so the snapshot
      is independent of any later change to the store.
     */
    function Memento(line: int): (m: Option<T>)
      reads this
      requires 1 <= line <= |data|
      ensures m == Data(line)
    {
      data[line - 1]
    }

    /** Inserts a new line `line` holding `memento`; later lines move up by one. */
    method InsertFromMemento(line: int, memento: Option<T>)
      requires 1 <= line <= |data| + 1
      modifies this
      ensures data == Insert(old(data), line - 1, memento)
      ensures NumLines() == old(NumLines()) + 1
      ensures notifyCount == old(notifyCount) + 1
    {
      data := Insert(data, line - 1, memento);
      NotifyObservers();
    }

    /** Puts `memento` back into line `line`; no other slot changes. */
    method ReplaceFromMemento(line: int, memento: Option<T>)
      requires 1 <= line <= |data|
      modifies this
      ensures data == old(data)[line - 1 := memento]
      ensures NumLines() == old(NumLines())
      ensures notifyCount == old(notifyCount) + 1
    {
      data := data[line - 1 := memento];
      NotifyObservers();
    }
  }

  /**
    The undo of a line deletion: snapshot line `line`, delete it, then insert
    the snapshot back. The store ends as it began; the signal fired twice.
   */
  method UndoLineDeletion<T>(store: LineMetaInfo<T>, line: int)
    requires 1 <= line <= store.NumLines()
    modifies store
    ensures store.data == old(store.data)
    ensures store.notifyCount == old(store.notifyCount) + 2
  {
    var m := store.Memento(line);
    store.DeleteLines(line, 1);
    store.InsertFromMemento(line, m);
    ReinsertUndoesDelete(old(store.data), line - 1);
  }

  /**
    The undo of an edit to a line: snapshot line `line`, overwrite it, then
    replace it with the snapshot. The snapshot `m` still holds the payload the
    line had at the start, the overwrite notwithstanding.
   */
  method UndoLineEdit<T>(store: LineMetaInfo<T>, line: int, v: Option<T>) returns (m: Option<T>)
    requires 1 <= line <= store.NumLines()
    modifies store
    ensures m == old(store.data)[line - 1]
    ensures store.data == old(store.data)
    ensures store.notifyCount == old(store.notifyCount) + 2
  {
    m := store.Memento(line);
    store.SetData(Single(v), line);
    SingleSlotWritesAgree(old(store.data), line - 1, v);
    store.ReplaceFromMemento(line, m);
  }
}
