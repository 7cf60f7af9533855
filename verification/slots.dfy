/**
  Sequence algebra behind the per-line metadata store.

  A store is a sequence of optional payloads, one slot per document line.
  Everything in this module works on 0-based positions `at`; the class in
  module LineMeta translates the 1-based line numbers of its public
  operations into these positions.
 */
module Slots {

  /** An empty slot (`None`) or a slot that holds an opaque payload. */
  datatype Option<T> = None | Some(value: T)

  /** `n` empty slots. */
  function Blank<T>(n: nat): seq<Option<T>>
  {
    seq(n, _ => None)
  }

  /** The number of iterations of a loop over `range(n)`: none when `n` is negative. */
  function RangeLength(n: int): nat
  {
    if n < 0 then 0 else n
  }

  /** A list's `insert(at, x)`, for a position inside the list or just past its end. */
  function Insert<T>(s: seq<T>, at: nat, x: T): seq<T>
    requires at <= |s|
  {
    s[..at] + [x] + s[at..]
  }

  /** A list's `pop(at)`, for a position inside the list. */
  function Pop<T>(s: seq<T>, at: nat): seq<T>
    requires at < |s|
  {
    s[..at] + s[at + 1..]
  }

  // ---------------------------------------------------------------------------
  // Adding lines: `n` insertions of an empty slot at the same position.
  // ---------------------------------------------------------------------------

  /** The slots after `n` empty slots are inserted, one at a time, at position `at`. */
  function AddedLines<T>(s: seq<Option<T>>, at: nat, n: nat): (r: seq<Option<T>>)
    requires at <= |s|
    ensures |r| == |s| + n
  {
    if n == 0 then s else Insert(AddedLines(s, at, n - 1), at, None)
  }

  /** Repeated insertion at one position puts a block of empty slots there. */
  lemma {:induction false} AddedLinesShape<T>(s: seq<Option<T>>, at: nat, n: nat)
    requires at <= |s|
    ensures AddedLines(s, at, n) == s[..at] + Blank<T>(n) + s[at..]
  {
    if n > 0 {
      AddedLinesShape(s, at, n - 1);
      var prev := AddedLines(s, at, n - 1);
      assert prev[..at] == s[..at];
      assert prev[at..] == Blank<T>(n - 1) + s[at..];
      assert Blank<T>(n) == [None] + Blank<T>(n - 1);
    }
  }

  /**
    Adding `n` lines at `at`: the length grows by `n`, the slots before `at`
    stay, the new slots are empty, and every old slot from `at` on moves up by `n`.
   */
  lemma {:induction false} AddedLinesAt<T>(s: seq<Option<T>>, at: nat, n: nat)
    requires at <= |s|
    ensures |AddedLines(s, at, n)| == |s| + n
    ensures forall j :: 0 <= j < at ==> AddedLines(s, at, n)[j] == s[j]
    ensures forall j :: at <= j < at + n ==> AddedLines(s, at, n)[j] == None
    ensures forall j :: at <= j < |s| ==> AddedLines(s, at, n)[j + n] == s[j]
  {
    AddedLinesShape(s, at, n);
  }

  // ---------------------------------------------------------------------------
  // Deleting lines: `n` pops at the same position.
  // ---------------------------------------------------------------------------

  /** The slots after the slot at position `at` is popped `n` times. */
  function DeletedLines<T>(s: seq<Option<T>>, at: nat, n: nat): (r: seq<Option<T>>)
    requires at + n <= |s|
    ensures |r| == |s| - n
  {
    if n == 0 then s else Pop(DeletedLines(s, at, n - 1), at)
  }

  /** Repeated popping at one position cuts out the block `[at, at + n)`. */
  lemma {:induction false} DeletedLinesShape<T>(s: seq<Option<T>>, at: nat, n: nat)
    requires at + n <= |s|
    ensures DeletedLines(s, at, n) == s[..at] + s[at + n..]
  {
    if n > 0 {
      DeletedLinesShape(s, at, n - 1);
      var prev := DeletedLines(s, at, n - 1);
      assert prev[..at] == s[..at];
      assert prev[at + 1..] == s[at + n..];
    }
  }

  /**
    Deleting `n` lines at `at`: the length shrinks by `n`, the slots before
    `at` stay, and the slots after the deleted block move down by `n`, in order.
   */
  lemma {:induction false} DeletedLinesAt<T>(s: seq<Option<T>>, at: nat, n: nat)
    requires at + n <= |s|
    ensures |DeletedLines(s, at, n)| == |s| - n
    ensures forall j :: 0 <= j < at ==> DeletedLines(s, at, n)[j] == s[j]
    ensures forall j :: at <= j < |s| - n ==> DeletedLines(s, at, n)[j] == s[j + n]
  {
    DeletedLinesShape(s, at, n);
  }

  /** Deleting the lines just added gives back the original slots. */
  lemma {:induction false} DeleteUndoesAdd<T>(s: seq<Option<T>>, at: nat, n: nat)
    requires at <= |s|
    ensures DeletedLines(AddedLines(s, at, n), at, n) == s
  {
    var added := AddedLines(s, at, n);
    AddedLinesShape(s, at, n);
    DeletedLinesShape(added, at, n);
    assert added[..at] == s[..at];
    assert added[at + n..] == s[at..];
  }

  /**
    Deleting one slot and inserting its saved value back at the same place
    restores the original slots: the undo of a line deletion.
   */
  lemma ReinsertUndoesDelete<T>(s: seq<Option<T>>, at: nat)
    requires at < |s|
    ensures Insert(DeletedLines(s, at, 1), at, s[at]) == s
  {
  }

  // ---------------------------------------------------------------------------
  // Writing a run of values from a starting position, dropping what does not fit.
  // ---------------------------------------------------------------------------

  /**
    The slots after `vals[0]`, `vals[1]`, ... are written to positions `at`,
    `at + 1`, ...; the writing stops silently at the end of the slots.
   */
  function WrittenFrom<T>(s: seq<Option<T>>, at: nat, vals: seq<Option<T>>): (r: seq<Option<T>>)
    ensures |r| == |s|
    decreases |vals|
  {
    if vals == [] || at >= |s| then s
    else WrittenFrom(s[at := vals[0]], at + 1, vals[1..])
  }

  /**
    A run write puts `vals[i]` at position `at + i` exactly when that position
    exists, and leaves every other slot and the length as they were.
   */
  lemma {:induction false} WrittenFromAt<T>(s: seq<Option<T>>, at: nat, vals: seq<Option<T>>)
    ensures |WrittenFrom(s, at, vals)| == |s|
    ensures forall j :: 0 <= j < |s| ==>
      WrittenFrom(s, at, vals)[j] == if at <= j < at + |vals| then vals[j - at] else s[j]
    decreases |vals|
  {
    if vals != [] && at < |s| {
      var s' := s[at := vals[0]];
      WrittenFromAt(s', at + 1, vals[1..]);
      forall j | 0 <= j < |s|
        ensures WrittenFrom(s, at, vals)[j] == if at <= j < at + |vals| then vals[j - at] else s[j]
      {
        if at + 1 <= j < at + |vals| {
          assert vals[1..][j - (at + 1)] == vals[j - at];
        }
      }
    }
  }

  // ---------------------------------------------------------------------------
  // Writing values keyed by 1-based line number.
  // ---------------------------------------------------------------------------

  /** The slots after each line `k` of `d` gets `d[k]`; every other slot is kept. */
  function WithEntries<T>(s: seq<Option<T>>, d: map<int, Option<T>>): (r: seq<Option<T>>)
  {
    seq(|s|, j requires 0 <= j < |s| => if j + 1 in d then d[j + 1] else s[j])
  }

  /**
    The three ways of writing one slot agree: a one-value run write, a
    one-entry keyed write, and a direct replacement of the slot.
   */
  lemma SingleSlotWritesAgree<T>(s: seq<Option<T>>, at: nat, v: Option<T>)
    requires at < |s|
    ensures WrittenFrom(s, at, [v]) == s[at := v]
    ensures WithEntries(s, map[at + 1 := v]) == s[at := v]
  {
  }
}
