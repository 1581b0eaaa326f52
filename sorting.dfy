/** The ordering policy applied to loaded metadata (`SortMetadata`).
    LINQ's `OrderBy` and `OrderByDescending` are stable sorts; they are
    modelled by one stable insertion sort, parameterised by the mode. */
module Sorting {
  import opened Metadata

  /** `SavedGamesSortMode`. */
  datatype SortMode = None | LastPlayedFirst | LongestPlaytimeFirst | SmallestSlotFirst

  /** The field a mode orders by (none for `None`). */
  function Key(mode: SortMode, m: SavedGameMetadata): int
    reads m
  {
    match mode
    case None => 0
    case LastPlayedFirst => m.timeStamp
    case LongestPlaytimeFirst => m.timePlayed
    case SmallestSlotFirst => m.slot
  }

  /** The modes sorted with `OrderByDescending`. */
  predicate Descending(mode: SortMode)
  {
    mode == LastPlayedFirst || mode == LongestPlaytimeFirst
  }

  /** `a` may come before `b` in the mode's order. */
  predicate Precedes(mode: SortMode, a: SavedGameMetadata, b: SavedGameMetadata)
    reads a, b
  {
    if Descending(mode) then Key(mode, a) >= Key(mode, b) else Key(mode, a) <= Key(mode, b)
  }

  ghost predicate Ordered(mode: SortMode, s: seq<SavedGameMetadata>)
    reads s
  {
    forall i, j :: 0 <= i < j < |s| ==> Precedes(mode, s[i], s[j])
  }

  /** The elements of `s` whose key is `k`, in their order in `s`. A sort is
      stable when it keeps every such subsequence as it was. */
  ghost function WithKey(mode: SortMode, s: seq<SavedGameMetadata>, k: int): seq<SavedGameMetadata>
    reads s
  {
    if s == [] then []
    else (if Key(mode, s[0]) == k then [s[0]] else []) + WithKey(mode, s[1..], k)
  }

  /** Places `x` before the first element it may precede. */
  function Insert(mode: SortMode, x: SavedGameMetadata, s: seq<SavedGameMetadata>): (r: seq<SavedGameMetadata>)
    reads x, set m | m in s
    ensures forall m | m in r :: m == x || m in s
    ensures multiset(r) == multiset(s) + multiset{x}
  {
    if s == [] || Precedes(mode, x, s[0]) then [x] + s
    else
      assert s == [s[0]] + s[1..];
      [s[0]] + Insert(mode, x, s[1..])
  }

  function SortByKey(mode: SortMode, ms: seq<SavedGameMetadata>): (r: seq<SavedGameMetadata>)
    reads ms
    ensures forall m | m in r :: m in ms
    ensures multiset(r) == multiset(ms)
  {
    if ms == [] then []
    else
      assert ms == [ms[0]] + ms[1..];
      var rest := SortByKey(mode, ms[1..]);
      Insert(mode, ms[0], rest)
  }

  lemma {:induction false} InsertOrdered(mode: SortMode, x: SavedGameMetadata, s: seq<SavedGameMetadata>)
    requires Ordered(mode, s)
    ensures Ordered(mode, Insert(mode, x, s))
  {
    if s != [] && !Precedes(mode, x, s[0]) {
      InsertOrdered(mode, x, s[1..]);
      var tail := Insert(mode, x, s[1..]);
      forall y | y in tail
        ensures Precedes(mode, s[0], y)
      {
        assert y in multiset(tail);
        assert y == x || y in multiset(s[1..]);
      }
    }
  }

  lemma {:induction false} WithKeyInsert(mode: SortMode, x: SavedGameMetadata, s: seq<SavedGameMetadata>, k: int)
    requires Ordered(mode, s)
    ensures WithKey(mode, Insert(mode, x, s), k)
         == (if Key(mode, x) == k then [x] else []) + WithKey(mode, s, k)
  {
    if s == [] || Precedes(mode, x, s[0]) {
      assert ([x] + s)[1..] == s;
    } else {
      WithKeyInsert(mode, x, s[1..], k);
      assert ([s[0]] + Insert(mode, x, s[1..]))[1..] == Insert(mode, x, s[1..]);
    }
  }

  lemma {:induction false} SortByKeyOrdered(mode: SortMode, ms: seq<SavedGameMetadata>)
    ensures Ordered(mode, SortByKey(mode, ms))
  {
    if ms != [] {
      SortByKeyOrdered(mode, ms[1..]);
      InsertOrdered(mode, ms[0], SortByKey(mode, ms[1..]));
    }
  }

  lemma {:induction false} SortByKeyStable(mode: SortMode, ms: seq<SavedGameMetadata>, k: int)
    ensures WithKey(mode, SortByKey(mode, ms), k) == WithKey(mode, ms, k)
  {
    if ms != [] {
      SortByKeyOrdered(mode, ms[1..]);
      SortByKeyStable(mode, ms[1..], k);
      WithKeyInsert(mode, ms[0], SortByKey(mode, ms[1..]), k);
    }
  }

  lemma SortByKeyStableForEveryKey(mode: SortMode, ms: seq<SavedGameMetadata>)
    ensures forall k :: WithKey(mode, SortByKey(mode, ms), k) == WithKey(mode, ms, k)
  {
    forall k ensures WithKey(mode, SortByKey(mode, ms), k) == WithKey(mode, ms, k) {
      SortByKeyStable(mode, ms, k);
    }
  }

  /** `SortMetadata`: `None` hands back the list it was given; every other
      mode returns a stable reordering of it by its key. */
  function SortMetadata(mode: SortMode, ms: seq<SavedGameMetadata>): (r: seq<SavedGameMetadata>)
    reads ms
    ensures mode == None ==> r == ms
    ensures multiset(r) == multiset(ms)
    ensures mode == SmallestSlotFirst ==>
      forall i, j :: 0 <= i < j < |r| ==> r[i].slot <= r[j].slot
    ensures mode == LongestPlaytimeFirst ==>
      forall i, j :: 0 <= i < j < |r| ==> r[i].timePlayed >= r[j].timePlayed
    ensures mode == LastPlayedFirst ==>
      forall i, j :: 0 <= i < j < |r| ==> r[i].timeStamp >= r[j].timeStamp
    ensures forall k :: WithKey(mode, r, k) == WithKey(mode, ms, k)
  {
    if mode == None then ms
    else
      SortByKeyOrdered(mode, ms);
      SortByKeyStableForEveryKey(mode, ms);
      SortByKey(mode, ms)
  }
}
