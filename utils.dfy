/** `Utils`: the string, list and span helpers the editor uses.

    The `List<T>` the extension methods change in place is an `ItemList`
    holding its elements. An exception a helper throws is an `ok` result of
    `false`, with the list as the exception leaves it. */
module Utils {
  import opened Common

  // ---------------------------------------------------------------------------
  // File names and paths

  /** `String.IndexOfAny`: the first index of a character from `chars`, or -1. */
  function IndexOfAny(s: string, chars: set<char>): (r: int)
    ensures -1 <= r < |s|
    ensures r >= 0 ==> s[r] in chars && forall j :: 0 <= j < r ==> s[j] !in chars
    ensures r == -1 ==> forall j :: 0 <= j < |s| ==> s[j] !in chars
    decreases |s|
  {
    if s == [] then -1
    else if s[0] in chars then 0
    else
      var k := IndexOfAny(s[1..], chars);
      if k < 0 then -1 else k + 1
  }

  /** `IsValidFileName`; the platform's invalid file name characters are a parameter. */
  function IsValidFileName(fileName: string, invalidFileNameChars: set<char>): (r: bool)
    ensures r <==> forall i :: 0 <= i < |fileName| ==> fileName[i] !in invalidFileNameChars
  {
    IndexOfAny(fileName, invalidFileNameChars) < 0
  }

  /** `IsValidPath`; the platform's invalid path characters are a parameter. */
  function IsValidPath(path: string, invalidPathChars: set<char>): (r: bool)
    ensures r <==> forall i :: 0 <= i < |path| ==> path[i] !in invalidPathChars
  {
    IndexOfAny(path, invalidPathChars) < 0
  }

  // ---------------------------------------------------------------------------
  // Strings and spans

  /** `String.EndsWith`, compared character by character. */
  predicate EndsWith(s: string, end: string) {
    |end| <= |s| && s[|s| - |end|..] == end
  }

  /** `EndsWithOneOf`: whether one of `ends` ends `str`. */
  method EndsWithOneOf(str: string, ends: seq<string>) returns (b: bool)
    ensures b <==> exists k :: 0 <= k < |ends| && EndsWith(str, ends[k])
  {
    for k := 0 to |ends|
      invariant forall j :: 0 <= j < k ==> !EndsWith(str, ends[j])
    {
      if EndsWith(str, ends[k]) {
        return true;
      }
    }
    return false;
  }

  /** `SequenceEqual` of a span and a list under the default equality. */
  method SequenceEqual<T(==)>(span: seq<T>, list: seq<T>) returns (b: bool)
    ensures b <==> span == list
  {
    if |span| != |list| {
      return false;
    }
    for i := 0 to |span|
      invariant span[..i] == list[..i]
    {
      if span[i] != list[i] {
        assert span[..i + 1][i] != list[..i + 1][i];
        return false;
      }
      assert span[..i + 1] == span[..i] + [span[i]] && list[..i + 1] == list[..i] + [list[i]];
    }
    assert span[..|span|] == span && list[..|list|] == list;
    return true;
  }

  /** `IncAndTryWrap` on a `ref` value: the value advanced by `delta`, wrapped
      back by `max` once it passes `max`. A value in `[0, max]` advanced by at
      most `max` stays in `[0, max]`. */
  method IncAndTryWrap(value: real, delta: real, max: real) returns (wrapped: bool, result: real)
    ensures wrapped <==> value + delta > max
    ensures result + (if wrapped then max else 0.0) == value + delta
    ensures 0.0 <= value <= max && 0.0 <= delta <= max ==> 0.0 <= result <= max
  {
    result := value + delta;
    if result > max {
      result := result - max;
      wrapped := true;
    } else {
      wrapped := false;
    }
  }

  // ---------------------------------------------------------------------------
  // Lists changed in place

  /** `List.RemoveAt`: the list without its element at `i`. */
  function RemovedAt<T>(xs: seq<T>, i: nat): (r: seq<T>)
    requires i < |xs|
    ensures |r| == |xs| - 1
    ensures forall j :: 0 <= j < i ==> r[j] == xs[j]
    ensures forall j :: i <= j < |r| ==> r[j] == xs[j + 1]
  {
    xs[..i] + xs[i + 1..]
  }

  /** `List.Insert`: `x` placed at `i`, the elements from `i` on after it. */
  function InsertedAt<T>(xs: seq<T>, i: nat, x: T): (r: seq<T>)
    requires i <= |xs|
    ensures |r| == |xs| + 1 && r[i] == x
    ensures forall j :: 0 <= j < i ==> r[j] == xs[j]
    ensures forall j :: i < j < |r| ==> r[j] == xs[j - 1]
  {
    xs[..i] + [x] + xs[i..]
  }

  /** `List.RemoveRange(offset, length)`: the list without those `length` elements. */
  function Removed<T>(xs: seq<T>, offset: nat, length: nat): (r: seq<T>)
    requires offset + length <= |xs|
    ensures |r| == |xs| - length
    ensures forall j :: 0 <= j < offset ==> r[j] == xs[j]
    ensures forall j :: offset <= j < |r| ==> r[j] == xs[j + length]
  {
    xs[..offset] + xs[offset + length..]
  }

  /** `MoveTo(from, to)` when it succeeds: the element at `from` taken out and
      put back at `to`. */
  function Moved<T>(xs: seq<T>, from: nat, to: nat): seq<T>
    requires from < |xs| && to < |xs|
  {
    if from == to then xs else InsertedAt(RemovedAt(xs, from), to, xs[from])
  }

  /** A .NET `Index`: counted from the start, or from the end with `^`. */
  datatype Index = FromStart(value: nat) | FromEnd(value: nat)

  /** A .NET `Range` `start..end`. */
  datatype Range = Range(start: Index, end: Index)

  function Offset(i: Index, length: nat): int {
    match i
    case FromStart(v) => v
    case FromEnd(v) => length - v
  }

  /** `Range.GetOffsetAndLength`: the first index and the number of elements
      of the range in a list of `length` elements, or `None` where it throws. */
  function OffsetAndLength(range: Range, length: nat): (r: Option<(nat, nat)>)
    ensures r.Some? <==> 0 <= Offset(range.start, length) <= Offset(range.end, length) <= length
    ensures r.Some? ==> r.value.0 == Offset(range.start, length) &&
                        r.value.0 + r.value.1 == Offset(range.end, length)
  {
    var start := Offset(range.start, length);
    var end := Offset(range.end, length);
    if end < 0 || end > length || start < 0 || start > end then None
    else Some((start, end - start))
  }

  /** A `List<T>` the helpers below change in place. */
  class ItemList<T> {
    var items: seq<T>

    constructor(items: seq<T>)
      ensures this.items == items
    {
      this.items := items;
    }

    /** `RemoveRange(range)`: the range's elements removed, or the list
        unchanged when the range does not fit it. */
    method RemoveRange(range: Range) returns (ok: bool)
      modifies this
      ensures ok <==> OffsetAndLength(range, |old(items)|).Some?
      ensures ok ==> items == Removed(old(items), OffsetAndLength(range, |old(items)|).value.0,
                                      OffsetAndLength(range, |old(items)|).value.1)
      ensures !ok ==> items == old(items)
    {
      var offsetAndLength := OffsetAndLength(range, |items|);
      if offsetAndLength.None? {
        return false;
      }
      var (offset, length) := offsetAndLength.value;
      items := Removed(items, offset, length);
      ok := true;
    }

    /** `MoveTo(fromIndex, toIndex)`: nothing when the indices are equal;
        otherwise the element is removed, then inserted at `toIndex`. An insert
        out of range throws after the removal, which stays done. */
    method MoveTo(fromIndex: int, toIndex: int) returns (ok: bool)
      modifies this
      ensures fromIndex == toIndex ==> ok && items == old(items)
      ensures fromIndex != toIndex && !(0 <= fromIndex < |old(items)|) ==> !ok && items == old(items)
      ensures fromIndex != toIndex && 0 <= fromIndex < |old(items)| && !(0 <= toIndex < |old(items)|) ==>
                !ok && items == RemovedAt(old(items), fromIndex)
      ensures fromIndex != toIndex && 0 <= fromIndex < |old(items)| && 0 <= toIndex < |old(items)| ==>
                ok && items == Moved(old(items), fromIndex, toIndex)
    {
      if fromIndex == toIndex {
        return true;
      }
      if !(0 <= fromIndex < |items|) {
        return false;
      }
      var val := items[fromIndex];
      items := RemovedAt(items, fromIndex);
      if !(0 <= toIndex <= |items|) {
        return false;
      }
      items := InsertedAt(items, toIndex, val);
      ok := true;
    }
  }

  /** A move keeps the elements: the same multiset, in a list of the same length. */
  lemma MovedPermutes<T>(xs: seq<T>, from: nat, to: nat)
    requires from < |xs| && to < |xs|
    ensures |Moved(xs, from, to)| == |xs|
    ensures multiset(Moved(xs, from, to)) == multiset(xs)
  {
    if from != to {
      var ys := RemovedAt(xs, from);
      assert xs == xs[..from] + [xs[from]] + xs[from + 1..];
      assert ys == ys[..to] + ys[to..];
      calc {
        multiset(Moved(xs, from, to));
        multiset(ys[..to] + [xs[from]] + ys[to..]);
        multiset(ys[..to]) + multiset{xs[from]} + multiset(ys[to..]);
        multiset(ys) + multiset{xs[from]};
        multiset(xs[..from]) + multiset(xs[from + 1..]) + multiset{xs[from]};
        multiset(xs);
      }
    }
  }

  /** A move puts the old `xs[from]` at `to` and keeps the other elements in
      their order. */
  lemma MovedPlaces<T>(xs: seq<T>, from: nat, to: nat)
    requires from < |xs| && to < |xs|
    ensures Moved(xs, from, to)[to] == xs[from]
    ensures RemovedAt(Moved(xs, from, to), to) == RemovedAt(xs, from)
  {
    var r := Moved(xs, from, to);
    var ys := RemovedAt(xs, from);
    if from != to {
      assert RemovedAt(r, to) == ys by {
        forall j | 0 <= j < |ys|
          ensures RemovedAt(r, to)[j] == ys[j]
        {
          if j < to {
            assert RemovedAt(r, to)[j] == r[j];
          } else {
            assert RemovedAt(r, to)[j] == r[j + 1];
          }
        }
      }
    }
  }

  /** The early return of `MoveTo` only skips work: removing an element and
      inserting it back where it was leaves the list as it is. */
  lemma MoveToSelf<T>(xs: seq<T>, i: nat)
    requires i < |xs|
    ensures InsertedAt(RemovedAt(xs, i), i, xs[i]) == xs
  {
    var r := InsertedAt(RemovedAt(xs, i), i, xs[i]);
    forall j | 0 <= j < |xs|
      ensures r[j] == xs[j]
    {
      if j > i {
        assert r[j] == RemovedAt(xs, i)[j - 1];
      }
    }
  }

  /** `Array(length)`: an array of `length` elements; a new one unless it is
      empty, which is the shared empty array. */
  method Array<T(0)>(length: nat) returns (a: array<T>)
    ensures a.Length == length
    ensures length > 0 ==> fresh(a)
  {
    a := new T[length];
  }

  // ---------------------------------------------------------------------------
  // IsSameForAll

  /** The comparer `IsSameForAll` uses: the given one, or the default equality. */
  function Equal<V(==)>(comparer: Option<(V, V) -> bool>, a: V, b: V): bool {
    if comparer.Some? then comparer.value(a, b) else a == b
  }

  /** `IsSameForAll`: whether `valueGetter` gives every element of the list the
      value it gives the first, and that value. A missing (`None`) or empty list
      is the same for all with the default value; for a longer list the loop
      compares the first value with every value, itself included, and a
      mismatch yields the default value. */
  method IsSameForAll<T, V(==)>(list: Option<seq<T>>, valueGetter: T -> V, comparer: Option<(V, V) -> bool>, default: V)
    returns (same: bool, value: V)
    ensures list.None? || |list.value| == 0 ==> same && value == default
    ensures list.Some? && |list.value| == 1 ==> same && value == valueGetter(list.value[0])
    ensures list.Some? && |list.value| >= 2 ==>
              (same <==> forall i :: 0 <= i < |list.value| ==>
                           Equal(comparer, valueGetter(list.value[0]), valueGetter(list.value[i])))
    ensures list.Some? && |list.value| >= 2 ==>
              value == if same then valueGetter(list.value[0]) else default
    ensures list.Some? && comparer.None? ==>
              (same <==> forall i, j :: 0 <= i < |list.value| && 0 <= j < |list.value| ==>
                           valueGetter(list.value[i]) == valueGetter(list.value[j]))
  {
    if list.None? || |list.value| == 0 {
      return true, default;
    }
    var xs := list.value;
    if |xs| == 1 {
      return true, valueGetter(xs[0]);
    }
    value := valueGetter(xs[0]);
    for i := 0 to |xs|
      invariant value == valueGetter(xs[0])
      invariant forall j :: 0 <= j < i ==> Equal(comparer, value, valueGetter(xs[j]))
    {
      if !Equal(comparer, value, valueGetter(xs[i])) {
        return false, default;
      }
    }
    same := true;
  }
}
