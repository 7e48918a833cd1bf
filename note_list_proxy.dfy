/** `ChartModel.NoteModelListProxy`: the read-only view of a chart's visible
    sequence (heads and tail markers, ordered by time) that the editor and the
    stage query. The proxy holds nothing but the chart; its queries are
    modelled over the visible sequence and the hold count they read. */
module NoteModelListProxy {
  import opened NoteDatas
  import opened Projection
  import Args

  /** `Count`: every entry, heads and tails. */
  function Count(vis: seq<Entry>): (c: nat)
    ensures c == |Heads(vis)| + |Tails(vis)|
  {
    HeadsTailsCount(vis);
    |vis|
  }

  /** `NoteCount`: `Count` minus the hold count, the combo of the chart. */
  function NoteCount(vis: seq<Entry>, holdCount: nat): int {
    Count(vis) - holdCount
  }

  /** On a projection built by `SetData`, `NoteCount` is the number of notes on
      stage: one per visible input note, tails not counted. */
  lemma NoteCountOfBuilt(notes: seq<NoteData>)
    ensures NoteCount(Build(notes).visible, Build(notes).holdCount) == |VisibleRefs(notes, |notes|)|
  {
    BuildNoteCount(notes);
    BuildHeads(notes);
  }

  // ---------------------------------------------------------------------------
  // Binary search by time

  /** `true` when `p` splits the sequence into entries not after `t` and entries not before it. */
  ghost predicate SplitsAt(vis: seq<Entry>, p: nat, t: real) {
    && p <= |vis|
    && (forall k :: 0 <= k < p ==> EntryTime(vis[k]) <= t)
    && (forall k :: p <= k < |vis| ==> t <= EntryTime(vis[k]))
  }

  /** `List.BinarySearch` with `NoteTimeComparer`: the halving search on
      `lo`/`hi`, returning an index whose entry is at time `t`, or the
      complement `-lo - 1` of the place where `t` would go. */
  method BinarySearch(vis: seq<Entry>, t: real) returns (r: int)
    ensures r >= 0 ==> r < |vis| && EntryTime(vis[r]) == t
    ensures r < 0 ==> -r - 1 <= |vis|
    ensures EntriesOrdered(vis) && r < 0 ==> forall k :: 0 <= k < |vis| ==> EntryTime(vis[k]) != t
    ensures EntriesOrdered(vis) && r < 0 ==> SplitsAt(vis, -r - 1, t)
  {
    var lo: int := 0;
    var hi: int := |vis| - 1;
    while lo <= hi
      invariant 0 <= lo <= hi + 1 <= |vis|
      invariant EntriesOrdered(vis) ==> forall k :: 0 <= k < lo ==> EntryTime(vis[k]) < t
      invariant EntriesOrdered(vis) ==> forall k :: hi < k < |vis| ==> t < EntryTime(vis[k])
      decreases hi - lo
    {
      var i := lo + (hi - lo) / 2;
      if EntryTime(vis[i]) == t {
        return i;
      }
      if EntryTime(vis[i]) < t {
        lo := i + 1;
      } else {
        hi := i - 1;
      }
    }
    r := -lo - 1;
  }

  // ---------------------------------------------------------------------------
  // Search for a head

  /** `Search(NoteModel)`: binary search by time, then the head itself at the
      found index or among its neighbours at the same time, scanning down and
      then up; the complement of the found index when the head is not among
      them. */
  method Search(vis: seq<Entry>, h: NoteRef) returns (r: int)
    ensures r >= 0 ==> r < |vis| && vis[r] == Head(h)
    ensures r < 0 ==> -r - 1 <= |vis|
    ensures EntriesOrdered(vis) ==> (r >= 0 <==> Head(h) in vis)
    ensures EntriesOrdered(vis) && r < 0 ==> SplitsAt(vis, -r - 1, h.data.time)
  {
    var t := h.data.time;
    var index := BinarySearch(vis, t);
    if index < 0 {
      return index;
    }
    if vis[index] == Head(h) {
      return index;
    }
    var i := index - 1;
    while i >= 0
      invariant -1 <= i < index
      invariant forall k :: i < k <= index ==> vis[k] != Head(h)
    {
      if EntryTime(vis[i]) != t {
        break;
      }
      if vis[i] == Head(h) {
        return i;
      }
      i := i - 1;
    }
    var j := index + 1;
    while j < |vis|
      invariant index < j <= |vis|
      invariant forall k :: index <= k < j ==> vis[k] != Head(h)
    {
      if EntryTime(vis[j]) != t {
        break;
      }
      if vis[j] == Head(h) {
        return j;
      }
      j := j + 1;
    }
    SearchMissed(vis, h, i, index, j);
    r := -index - 1;
  }

  /** Both scans of `Search` stopped (at the ends or at another time) without
      meeting the head: in a time-ordered sequence the head is absent, and the
      found index is a place for it. */
  lemma SearchMissed(vis: seq<Entry>, h: NoteRef, i: int, index: nat, j: nat)
    requires -1 <= i < index < j <= |vis| && EntryTime(vis[index]) == h.data.time
    requires i >= 0 ==> EntryTime(vis[i]) != h.data.time
    requires j < |vis| ==> EntryTime(vis[j]) != h.data.time
    requires forall k :: i < k < j ==> vis[k] != Head(h)
    ensures EntriesOrdered(vis) ==> Head(h) !in vis
    ensures EntriesOrdered(vis) ==> SplitsAt(vis, index, h.data.time)
  {
    if EntriesOrdered(vis) {
      var t := h.data.time;
      forall k | 0 <= k < |vis|
        ensures vis[k] != Head(h)
      {
        if k <= i {
          assert EntryTime(vis[k]) <= EntryTime(vis[i]) <= EntryTime(vis[index]);
          assert EntryTime(vis[k]) < t;
        } else if j <= k {
          assert EntryTime(vis[index]) <= EntryTime(vis[j]) <= EntryTime(vis[k]);
          assert t < EntryTime(vis[k]);
        }
      }
    }
  }

  // ---------------------------------------------------------------------------
  // Search for a tail

  /** `SearchTailOf(int)`: for a hold head at `noteIndex`, the index of the
      first later tail marker of that head; -1 for any other entry, and -1
      (after a debug assertion) when the hold has no later tail. */
  method SearchTailAt(vis: seq<Entry>, noteIndex: nat) returns (r: int)
    requires noteIndex < |vis|
    ensures r == -1 || noteIndex < r < |vis|
    ensures !(vis[noteIndex].Head? && IsHold(vis[noteIndex].model.data)) ==> r == -1
    ensures r >= 0 ==> vis[r] == Tail(vis[noteIndex].model) &&
                       forall k :: noteIndex < k < r ==> vis[k] != Tail(vis[noteIndex].model)
    ensures vis[noteIndex].Head? && IsHold(vis[noteIndex].model.data) ==>
              (r == -1 <==> Tail(vis[noteIndex].model) !in vis[noteIndex + 1..])
  {
    if !(vis[noteIndex].Head? && IsHold(vis[noteIndex].model.data)) {
      return -1;
    }
    var head := vis[noteIndex].model;
    var i := noteIndex + 1;
    while i < |vis|
      invariant noteIndex < i <= |vis|
      invariant forall k :: noteIndex < k < i ==> vis[k] != Tail(head)
    {
      if vis[i] == Tail(head) {
        return i;
      }
      i := i + 1;
    }
    r := -1;
  }

  /** Every hold head of a built projection has its tail after it, so
      `SearchTailOf(int)` never reaches its debug assertion there. */
  lemma BuiltHoldTailFound(notes: seq<NoteData>, q: nat)
    requires q < |Build(notes).visible|
    requires Build(notes).visible[q].Head? && IsHold(Build(notes).visible[q].model.data)
    ensures Tail(Build(notes).visible[q].model) in Build(notes).visible[q + 1..]
  {
    BuildTailsAfterHeads(notes);
  }

  /** `SearchTailOf(NoteModel)`: -1 for a non-hold; otherwise the tail search
      from the head's index found by `Search`. The source indexes the list with
      that result, so a hold head must be present in a time-ordered sequence. */
  method SearchTailOf(vis: seq<Entry>, h: NoteRef) returns (r: int)
    requires IsHold(h.data) ==> EntriesOrdered(vis) && Head(h) in vis
    ensures !IsHold(h.data) ==> r == -1
    ensures r == -1 || (0 <= r < |vis| && vis[r] == Tail(h))
    ensures IsHold(h.data) && (forall k :: 0 <= k < |vis| && vis[k] == Head(h) ==> Tail(h) in vis[k + 1..]) ==>
              r >= 0
    ensures r >= 0 ==> Head(h) in vis[..r]
  {
    if !IsHold(h.data) {
      return -1;
    }
    var noteIndex := Search(vis, h);
    r := SearchTailAt(vis, noteIndex);
    if r >= 0 {
      assert vis[..r][noteIndex] == Head(h);
    }
  }

  // ---------------------------------------------------------------------------
  // Collisions

  /** The heads the downward scan of `GetCollidedNotesTo` collects from the
      entries below `n`: tails are skipped, the scan stops at the first head
      not within the time threshold, and heads within the position threshold
      are collected, nearest first. */
  function ScanDown(vis: seq<Entry>, edit: NoteData, n: nat): seq<NoteRef>
    requires n <= |vis|
  {
    if n == 0 then []
    else
      var e := vis[n - 1];
      if e.Tail? then ScanDown(vis, edit, n - 1)
      else if !Args.IsTimeCollided(PositionCoord(e.model.data), PositionCoord(edit)) then []
      else (if Args.IsPositionCollided(PositionCoord(e.model.data), PositionCoord(edit)) then [e.model] else []) +
           ScanDown(vis, edit, n - 1)
  }

  /** The upward scan from index `i`, with the edited note as the left operand
      of both collision tests. */
  function ScanUp(vis: seq<Entry>, edit: NoteData, i: nat): seq<NoteRef>
    requires i <= |vis|
    decreases |vis| - i
  {
    if i == |vis| then []
    else
      var e := vis[i];
      if e.Tail? then ScanUp(vis, edit, i + 1)
      else if !Args.IsTimeCollided(PositionCoord(edit), PositionCoord(e.model.data)) then []
      else (if Args.IsPositionCollided(PositionCoord(edit), PositionCoord(e.model.data)) then [e.model] else []) +
           ScanUp(vis, edit, i + 1)
  }

  /** `GetCollidedNotesTo`: the heads colliding with the head at `noteIndex`,
      those below it (nearest first) and then those above it. */
  method GetCollidedNotesTo(vis: seq<Entry>, noteIndex: nat) returns (collided: seq<NoteRef>)
    requires noteIndex < |vis| && vis[noteIndex].Head?
    ensures var edit := vis[noteIndex].model.data;
      collided == ScanDown(vis, edit, noteIndex) + ScanUp(vis, edit, noteIndex + 1)
  {
    var edit := vis[noteIndex].model.data;
    var below := CollectDown(vis, edit, noteIndex);
    var above := CollectUp(vis, edit, noteIndex + 1);
    collided := below + above;
  }

  /** The downward loop of `GetCollidedNotesTo`, over the entries below `n`. */
  method CollectDown(vis: seq<Entry>, edit: NoteData, n: nat) returns (below: seq<NoteRef>)
    requires n <= |vis|
    ensures below == ScanDown(vis, edit, n)
  {
    below := [];
    var i: nat := n;
    while i > 0
      invariant i <= n
      invariant below + ScanDown(vis, edit, i) == ScanDown(vis, edit, n)
    {
      var e := vis[i - 1];
      if e.Head? {
        if !Args.IsTimeCollided(PositionCoord(e.model.data), PositionCoord(edit)) {
          assert ScanDown(vis, edit, i) == [];
          break;
        }
        if Args.IsPositionCollided(PositionCoord(e.model.data), PositionCoord(edit)) {
          below := below + [e.model];
        }
      }
      i := i - 1;
    }
  }

  /** The upward loop of `GetCollidedNotesTo`, over the entries from `i` on. */
  method CollectUp(vis: seq<Entry>, edit: NoteData, i: nat) returns (above: seq<NoteRef>)
    requires i <= |vis|
    ensures above == ScanUp(vis, edit, i)
  {
    above := [];
    var j := i;
    while j < |vis|
      invariant i <= j <= |vis|
      invariant above + ScanUp(vis, edit, j) == ScanUp(vis, edit, i)
    {
      var e := vis[j];
      if e.Head? {
        if !Args.IsTimeCollided(PositionCoord(edit), PositionCoord(e.model.data)) {
          break;
        }
        if Args.IsPositionCollided(PositionCoord(edit), PositionCoord(e.model.data)) {
          above := above + [e.model];
        }
      }
      j := j + 1;
    }
  }

  /** Every head the downward scan collects is a head below `n` that collides with the edited note. */
  lemma {:induction false} ScanDownSound(vis: seq<Entry>, edit: NoteData, n: nat)
    requires n <= |vis|
    ensures forall r :: r in ScanDown(vis, edit, n) ==>
              Head(r) in vis[..n] && Args.IsCollided(PositionCoord(r.data), PositionCoord(edit))
  {
    if n > 0 {
      ScanDownSound(vis, edit, n - 1);
      assert vis[..n] == vis[..n - 1] + [vis[n - 1]];
    }
  }

  /** Over a time-ordered sequence whose entries below `n` are not after the
      edited note, the downward scan misses no colliding head. */
  lemma {:induction false} ScanDownComplete(vis: seq<Entry>, edit: NoteData, n: nat)
    requires n <= |vis| && EntriesOrdered(vis)
    requires forall k :: 0 <= k < n ==> EntryTime(vis[k]) <= edit.time
    ensures forall k :: 0 <= k < n && vis[k].Head? &&
                        Args.IsCollided(PositionCoord(vis[k].model.data), PositionCoord(edit)) ==>
              vis[k].model in ScanDown(vis, edit, n)
  {
    if n > 0 {
      ScanDownComplete(vis, edit, n - 1);
      var e := vis[n - 1];
      if e.Head? && !Args.IsTimeCollided(PositionCoord(e.model.data), PositionCoord(edit)) {
        forall k | 0 <= k < n && vis[k].Head?
          ensures !Args.IsTimeCollided(PositionCoord(vis[k].model.data), PositionCoord(edit))
        {
          assert EntryTime(vis[k]) <= EntryTime(e);
        }
      }
    }
  }

  /** Every head the upward scan collects is a head at or above `i` that collides with the edited note. */
  lemma {:induction false} ScanUpSound(vis: seq<Entry>, edit: NoteData, i: nat)
    requires i <= |vis|
    ensures forall r :: r in ScanUp(vis, edit, i) ==>
              Head(r) in vis[i..] && Args.IsCollided(PositionCoord(edit), PositionCoord(r.data))
    decreases |vis| - i
  {
    if i < |vis| {
      ScanUpSound(vis, edit, i + 1);
      assert vis[i..] == [vis[i]] + vis[i + 1..];
    }
  }

  /** Over a time-ordered sequence whose entries from `i` on are not before
      the edited note, the upward scan misses no colliding head. */
  lemma {:induction false} ScanUpComplete(vis: seq<Entry>, edit: NoteData, i: nat)
    requires i <= |vis| && EntriesOrdered(vis)
    requires forall k :: i <= k < |vis| ==> edit.time <= EntryTime(vis[k])
    ensures forall k :: i <= k < |vis| && vis[k].Head? &&
                        Args.IsCollided(PositionCoord(edit), PositionCoord(vis[k].model.data)) ==>
              vis[k].model in ScanUp(vis, edit, i)
    decreases |vis| - i
  {
    if i < |vis| {
      ScanUpComplete(vis, edit, i + 1);
      var e := vis[i];
      if e.Head? && !Args.IsTimeCollided(PositionCoord(edit), PositionCoord(e.model.data)) {
        forall k | i <= k < |vis| && vis[k].Head?
          ensures !Args.IsTimeCollided(PositionCoord(edit), PositionCoord(vis[k].model.data))
        {
          assert EntryTime(e) <= EntryTime(vis[k]);
        }
      }
    }
  }

  /** Each head `GetCollidedNotesTo` returns is another head colliding with the edited one. */
  lemma CollidedNotesSound(vis: seq<Entry>, noteIndex: nat)
    requires noteIndex < |vis| && vis[noteIndex].Head?
    ensures var edit := vis[noteIndex].model.data;
      forall r :: r in ScanDown(vis, edit, noteIndex) + ScanUp(vis, edit, noteIndex + 1) ==>
        (Head(r) in vis[..noteIndex] || Head(r) in vis[noteIndex + 1..]) &&
        Args.IsCollided(PositionCoord(r.data), PositionCoord(edit))
  {
    var edit := vis[noteIndex].model.data;
    ScanDownSound(vis, edit, noteIndex);
    ScanUpSound(vis, edit, noteIndex + 1);
    forall r | r in ScanDown(vis, edit, noteIndex) + ScanUp(vis, edit, noteIndex + 1)
      ensures Args.IsCollided(PositionCoord(r.data), PositionCoord(edit))
    {
      Args.CollisionSymmetric(PositionCoord(edit), PositionCoord(r.data));
    }
  }

  /** In a time-ordered sequence, every other head colliding with the edited
      one is among the heads `GetCollidedNotesTo` returns. */
  lemma CollidedNotesComplete(vis: seq<Entry>, noteIndex: nat)
    requires noteIndex < |vis| && vis[noteIndex].Head? && EntriesOrdered(vis)
    ensures var edit := vis[noteIndex].model.data;
      forall k :: 0 <= k < |vis| && k != noteIndex && vis[k].Head? &&
                  Args.IsCollided(PositionCoord(vis[k].model.data), PositionCoord(edit)) ==>
        vis[k].model in ScanDown(vis, edit, noteIndex) + ScanUp(vis, edit, noteIndex + 1)
  {
    var edit := vis[noteIndex].model.data;
    assert EntryTime(vis[noteIndex]) == edit.time;
    ScanDownComplete(vis, edit, noteIndex);
    ScanUpComplete(vis, edit, noteIndex + 1);
    forall k | 0 <= k < |vis| && k != noteIndex && vis[k].Head? &&
               Args.IsCollided(PositionCoord(vis[k].model.data), PositionCoord(edit))
      ensures Args.IsCollided(PositionCoord(edit), PositionCoord(vis[k].model.data))
    {
      Args.CollisionSymmetric(PositionCoord(vis[k].model.data), PositionCoord(edit));
    }
  }

  /** In a time-ordered sequence, `GetCollidedNotesTo` returns exactly the
      other heads colliding with the edited one: each result is such a head,
      and each such head is in the result. */
  lemma CollidedNotesExact(vis: seq<Entry>, noteIndex: nat)
    requires noteIndex < |vis| && vis[noteIndex].Head? && EntriesOrdered(vis)
    ensures var edit := vis[noteIndex].model.data;
      var result := ScanDown(vis, edit, noteIndex) + ScanUp(vis, edit, noteIndex + 1);
      && (forall r :: r in result ==>
            (Head(r) in vis[..noteIndex] || Head(r) in vis[noteIndex + 1..]) &&
            Args.IsCollided(PositionCoord(r.data), PositionCoord(edit)))
      && (forall k :: 0 <= k < |vis| && k != noteIndex && vis[k].Head? &&
                      Args.IsCollided(PositionCoord(vis[k].model.data), PositionCoord(edit)) ==>
            vis[k].model in result)
  {
    CollidedNotesSound(vis, noteIndex);
    CollidedNotesComplete(vis, noteIndex);
  }
}
