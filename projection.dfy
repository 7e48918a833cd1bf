/** The chart projection built by `ChartModel.SetData`: from a time-ordered flat
    note list, one forward pass produces the visible sequence (note heads and
    the tail markers of holds) and the background sequence (notes off stage).

    This module states the pass as functions (`Step`, `Run`, `Build`) and
    proves what it guarantees; `ChartModels.BuildProjection` runs the same
    pass with loops and is proved equal to `Build`. */
module Projection {
  import opened Common
  import opened NoteDatas

  /** A `NoteModel` of the projection: `id` is the index of its note in the
      input list and stands for the object's identity. */
  datatype NoteRef = NoteRef(id: nat, data: NoteData)

  /** An entry of the visible sequence: a head (`NoteModel`) or the tail marker
      of a hold (`NoteTailModel`), which refers to its head. */
  datatype Entry = Head(model: NoteRef) | Tail(model: NoteRef)

  /** A head sits at its note's time, a tail at its hold's end time. */
  function EntryTime(e: Entry): real {
    match e
    case Head(m) => m.data.time
    case Tail(m) => EndTime(m.data)
  }

  function Last<T>(s: seq<T>): T
    requires s != []
  {
    s[|s| - 1]
  }

  // ---------------------------------------------------------------------------
  // Views of a visible sequence

  /** The heads of a visible sequence, in order. */
  function Heads(s: seq<Entry>): seq<NoteRef> {
    if s == [] then [] else (if s[0].Head? then [s[0].model] else []) + Heads(s[1..])
  }

  /** The holds whose tails a visible sequence contains, in order. */
  function Tails(s: seq<Entry>): seq<NoteRef> {
    if s == [] then [] else (if s[0].Tail? then [s[0].model] else []) + Tails(s[1..])
  }

  lemma {:induction false} HeadsTailsAppend(a: seq<Entry>, b: seq<Entry>)
    ensures Heads(a + b) == Heads(a) + Heads(b)
    ensures Tails(a + b) == Tails(a) + Tails(b)
  {
    if a != [] {
      assert (a + b)[1..] == a[1..] + b;
      HeadsTailsAppend(a[1..], b);
    } else {
      assert a + b == b;
    }
  }

  /** Every entry is a head or a tail: `Count` is heads plus tails. */
  lemma {:induction false} HeadsTailsCount(s: seq<Entry>)
    ensures |Heads(s)| + |Tails(s)| == |s|
  {
    if s != [] {
      HeadsTailsCount(s[1..]);
    }
  }

  /** The tail markers of a list of holds. */
  function TailEntries(refs: seq<NoteRef>): (r: seq<Entry>)
    ensures |r| == |refs|
    ensures forall i :: 0 <= i < |refs| ==> r[i] == Tail(refs[i])
  {
    if refs == [] then [] else [Tail(refs[0])] + TailEntries(refs[1..])
  }

  lemma {:induction false} TailEntriesViews(refs: seq<NoteRef>)
    ensures Heads(TailEntries(refs)) == []
    ensures Tails(TailEntries(refs)) == refs
  {
    if refs != [] {
      TailEntriesViews(refs[1..]);
      assert TailEntries(refs)[1..] == TailEntries(refs[1..]);
    }
  }

  lemma {:induction false} TailEntriesAppend(a: seq<NoteRef>, b: seq<NoteRef>)
    ensures TailEntries(a + b) == TailEntries(a) + TailEntries(b)
    decreases |a|
  {
    if a == [] {
      assert a + b == b;
    } else {
      assert (a + b)[1..] == a[1..] + b;
      TailEntriesAppend(a[1..], b);
    }
  }

  /** Emitting one more pending tail extends the emitted entries by its tail. */
  lemma TailEntriesSnoc(tails: seq<NoteRef>, j: nat)
    requires j < |tails|
    ensures TailEntries(tails[..j + 1]) == TailEntries(tails[..j]) + [Tail(tails[j])]
  {
    assert tails[..j + 1] == tails[..j] + [tails[j]];
    TailEntriesAppend(tails[..j], [tails[j]]);
  }

  // ---------------------------------------------------------------------------
  // What the input list says the projection must contain

  /** The visible notes of the first `n` inputs, as the heads they become. */
  function VisibleRefs(notes: seq<NoteData>, n: nat): seq<NoteRef>
    requires n <= |notes|
  {
    if n == 0 then []
    else VisibleRefs(notes, n - 1) + (if IsVisible(notes[n - 1]) then [NoteRef(n - 1, notes[n - 1])] else [])
  }

  /** The visible holds of the first `n` inputs. */
  function VisibleHoldRefs(notes: seq<NoteData>, n: nat): seq<NoteRef>
    requires n <= |notes|
  {
    if n == 0 then []
    else VisibleHoldRefs(notes, n - 1) +
         (if IsVisible(notes[n - 1]) && IsHold(notes[n - 1]) then [NoteRef(n - 1, notes[n - 1])] else [])
  }

  /** The invisible notes of the first `n` inputs, in input order. */
  function Invisible(notes: seq<NoteData>, n: nat): seq<NoteData>
    requires n <= |notes|
  {
    if n == 0 then [] else Invisible(notes, n - 1) + (if IsVisible(notes[n - 1]) then [] else [notes[n - 1]])
  }

  /** The input note with index `r.id`, as a head of the projection. */
  predicate IsInputRef(notes: seq<NoteData>, r: NoteRef) {
    r.id < |notes| && r.data == notes[r.id]
  }

  /** How often `r` occurs in `s`, counted from the back as the lists above grow. */
  function Occurrences(s: seq<NoteRef>, r: NoteRef): nat {
    if s == [] then 0 else Occurrences(s[..|s| - 1], r) + (if s[|s| - 1] == r then 1 else 0)
  }

  lemma OccurrencesSnoc(s: seq<NoteRef>, x: NoteRef, r: NoteRef)
    ensures Occurrences(s + [x], r) == Occurrences(s, r) + (if x == r then 1 else 0)
  {
    assert (s + [x])[..|s|] == s;
  }

  lemma {:induction false} OccurrencesAreMultiplicity(s: seq<NoteRef>, r: NoteRef)
    ensures multiset(s)[r] == Occurrences(s, r)
    decreases |s|
  {
    if s != [] {
      OccurrencesAreMultiplicity(s[..|s| - 1], r);
      assert s == s[..|s| - 1] + [s[|s| - 1]];
    }
  }

  lemma {:induction false} VisibleHoldRefsCount(notes: seq<NoteData>, n: nat, r: NoteRef)
    requires n <= |notes|
    ensures Occurrences(VisibleHoldRefs(notes, n), r) ==
              if r.id < n && IsInputRef(notes, r) && IsVisible(r.data) && IsHold(r.data) then 1 else 0
    decreases n
  {
    if n > 0 {
      VisibleHoldRefsCount(notes, n - 1, r);
      var note := notes[n - 1];
      if IsVisible(note) && IsHold(note) {
        OccurrencesSnoc(VisibleHoldRefs(notes, n - 1), NoteRef(n - 1, note), r);
      } else {
        assert VisibleHoldRefs(notes, n) == VisibleHoldRefs(notes, n - 1);
      }
    }
  }

  /** Each visible hold of the input occurs once among the visible holds; nothing else occurs. */
  lemma VisibleHoldRefsOccurrences(notes: seq<NoteData>, n: nat, r: NoteRef)
    requires n <= |notes|
    ensures multiset(VisibleHoldRefs(notes, n))[r] ==
              if r.id < n && IsInputRef(notes, r) && IsVisible(r.data) && IsHold(r.data) then 1 else 0
  {
    OccurrencesAreMultiplicity(VisibleHoldRefs(notes, n), r);
    VisibleHoldRefsCount(notes, n, r);
  }

  /** The heads the input calls for are the visible input notes, in input order, each once. */
  lemma {:induction false} VisibleRefsAreVisibleInputs(notes: seq<NoteData>, n: nat)
    requires n <= |notes|
    ensures forall i :: 0 <= i < |VisibleRefs(notes, n)| ==>
              var r := VisibleRefs(notes, n)[i]; r.id < n && IsInputRef(notes, r) && IsVisible(r.data)
    ensures forall i, j :: 0 <= i < j < |VisibleRefs(notes, n)| ==>
              VisibleRefs(notes, n)[i].id < VisibleRefs(notes, n)[j].id
    ensures forall k :: 0 <= k < n && IsVisible(notes[k]) ==> NoteRef(k, notes[k]) in VisibleRefs(notes, n)
  {
    if n > 0 {
      VisibleRefsAreVisibleInputs(notes, n - 1);
    }
  }

  // ---------------------------------------------------------------------------
  // The pending-tails buffer

  /** The buffer is ordered by end time. */
  ghost predicate TailsSorted(tails: seq<NoteRef>) {
    forall i, j :: 0 <= i < j < |tails| ==> EndTime(tails[i].data) <= EndTime(tails[j].data)
  }

  /** How many pending tails the flush before a head at `time` emits: the
      leading run of the buffer with an end time strictly before `time`. */
  function FlushCount(tails: seq<NoteRef>, time: real): (k: nat)
    ensures k <= |tails|
    ensures forall i :: 0 <= i < k ==> EndTime(tails[i].data) < time
    ensures k < |tails| ==> EndTime(tails[k].data) >= time
  {
    if tails != [] && EndTime(tails[0].data) < time then 1 + FlushCount(tails[1..], time) else 0
  }

  /** For a sorted buffer the flush emits exactly the tails ending before `time`. */
  lemma FlushSplitsAtTime(tails: seq<NoteRef>, time: real)
    requires TailsSorted(tails)
    ensures var k := FlushCount(tails, time);
      forall i :: 0 <= i < |tails| ==> (i < k <==> EndTime(tails[i].data) < time)
  {
  }

  /** Where `InsertInOrder` puts a hold ending at `endTime`: after every entry
      ending at or before it, in front of the first ending later. */
  function InsertionPoint(tails: seq<NoteRef>, endTime: real): (k: nat)
    ensures k <= |tails|
    ensures forall i :: 0 <= i < k ==> EndTime(tails[i].data) <= endTime
    ensures k < |tails| ==> EndTime(tails[k].data) > endTime
  {
    if tails != [] && EndTime(tails[0].data) <= endTime then 1 + InsertionPoint(tails[1..], endTime) else 0
  }

  function Inserted(tails: seq<NoteRef>, r: NoteRef): seq<NoteRef> {
    var k := InsertionPoint(tails, EndTime(r.data));
    tails[..k] + [r] + tails[k..]
  }

  /** Putting `x` at position `k` adds exactly `x`. */
  lemma SpliceContents<T>(a: seq<T>, k: nat, x: T)
    requires k <= |a|
    ensures multiset(a[..k] + [x] + a[k..]) == multiset(a) + multiset{x}
    ensures forall y :: y in a[..k] + [x] + a[k..] <==> y in a || y == x
  {
    assert a == a[..k] + a[k..];
  }

  /** Insertion keeps the buffer sorted. */
  lemma InsertedOrdered(tails: seq<NoteRef>, r: NoteRef)
    requires TailsSorted(tails)
    ensures TailsSorted(Inserted(tails, r))
  {
    var k := InsertionPoint(tails, EndTime(r.data));
    var s := Inserted(tails, r);
    forall i, j | 0 <= i < j < |s|
      ensures EndTime(s[i].data) <= EndTime(s[j].data)
    {
      if j < k || i > k {
      } else if i == k {
        assert EndTime(tails[k].data) <= EndTime(tails[j - 1].data);
      } else if j == k {
      } else {
        assert EndTime(tails[i].data) <= EndTime(r.data);
      }
    }
  }

  /** Insertion keeps the buffer sorted and adds exactly the new hold. */
  lemma InsertedSorted(tails: seq<NoteRef>, r: NoteRef)
    requires TailsSorted(tails)
    ensures TailsSorted(Inserted(tails, r))
    ensures multiset(Inserted(tails, r)) == multiset(tails) + multiset{r}
    ensures forall x :: x in Inserted(tails, r) <==> x in tails || x == r
  {
    InsertedOrdered(tails, r);
    SpliceContents(tails, InsertionPoint(tails, EndTime(r.data)), r);
  }

  // ---------------------------------------------------------------------------
  // The pass

  /** The state of `SetData` between input notes: the two output lists, the
      hold counter and the pending-tails buffer. */
  datatype Builder = Builder(visible: seq<Entry>, background: seq<NoteData>, holdCount: nat, tails: seq<NoteRef>)

  /** One input note. Invisible: onto the background. Visible: flush the
      pending tails ending strictly before it, append its head, and if it is a
      hold put it into the buffer. */
  function Step(b: Builder, id: nat, note: NoteData): Builder {
    if !IsVisible(note) then b.(background := b.background + [note])
    else
      var k := FlushCount(b.tails, note.time);
      var head := NoteRef(id, note);
      var rest := b.tails[k..];
      Builder(b.visible + TailEntries(b.tails[..k]) + [Head(head)], b.background, b.holdCount + k,
              if IsHold(note) then Inserted(rest, head) else rest)
  }

  /** The state after the first `n` input notes. */
  function Run(notes: seq<NoteData>, n: nat): Builder
    requires n <= |notes|
  {
    if n == 0 then Builder([], [], 0, []) else Step(Run(notes, n - 1), n - 1, notes[n - 1])
  }

  /** After the last note, every tail still pending is emitted in buffer order. */
  function Finish(b: Builder): Builder {
    Builder(b.visible + TailEntries(b.tails), b.background, b.holdCount + |b.tails|, [])
  }

  function Build(notes: seq<NoteData>): Builder {
    Finish(Run(notes, |notes|))
  }

  // ---------------------------------------------------------------------------
  // Invariant of the pass

  /** Every tail comes after its head. */
  ghost predicate TailsFollowHeads(vis: seq<Entry>) {
    forall k :: 0 <= k < |vis| && vis[k].Tail? ==> Head(vis[k].model) in vis[..k]
  }

  /** Every hold head is followed by its tail, or its tail is still pending. */
  ghost predicate HoldsClosed(vis: seq<Entry>, tails: seq<NoteRef>) {
    forall q :: 0 <= q < |vis| && vis[q].Head? && IsHold(vis[q].model.data) ==>
      Tail(vis[q].model) in vis[q + 1..] || vis[q].model in tails
  }

  ghost predicate Inv(notes: seq<NoteData>, n: nat, b: Builder)
    requires n <= |notes|
  {
    && Heads(b.visible) == VisibleRefs(notes, n)
    && b.background == Invisible(notes, n)
    && multiset(Tails(b.visible)) + multiset(b.tails) == multiset(VisibleHoldRefs(notes, n))
    && b.holdCount == |Tails(b.visible)|
    && TailsSorted(b.tails)
    && (forall r :: r in b.tails ==> Head(r) in b.visible)
    && TailsFollowHeads(b.visible)
    && HoldsClosed(b.visible, b.tails)
  }

  lemma FlushedViews(b: Builder, k: nat, h: NoteRef)
    requires k <= |b.tails|
    ensures var vis := b.visible + TailEntries(b.tails[..k]) + [Head(h)];
      Heads(vis) == Heads(b.visible) + [h] && Tails(vis) == Tails(b.visible) + b.tails[..k]
  {
    HeadsTailsAppend(b.visible, TailEntries(b.tails[..k]));
    HeadsTailsAppend(b.visible + TailEntries(b.tails[..k]), [Head(h)]);
    TailEntriesViews(b.tails[..k]);
    assert Heads([Head(h)]) == [h];
    assert Tails([Head(h)]) == [];
  }

  /** Emitting tails of holds whose heads are out keeps every tail after its head. */
  lemma AppendTailsFollow(vis: seq<Entry>, ts: seq<NoteRef>)
    requires TailsFollowHeads(vis)
    requires forall r :: r in ts ==> Head(r) in vis
    ensures TailsFollowHeads(vis + TailEntries(ts))
  {
    var s := vis + TailEntries(ts);
    forall q | 0 <= q < |s| && s[q].Tail?
      ensures Head(s[q].model) in s[..q]
    {
      if q < |vis| {
        assert s[..q] == vis[..q];
      } else {
        assert s[q] == Tail(ts[q - |vis|]);
        assert s[..q] == vis + s[|vis|..q];
      }
    }
  }

  lemma AppendHeadFollow(vis: seq<Entry>, h: NoteRef)
    requires TailsFollowHeads(vis)
    ensures TailsFollowHeads(vis + [Head(h)])
  {
    var s := vis + [Head(h)];
    forall q | 0 <= q < |s| && s[q].Tail?
      ensures Head(s[q].model) in s[..q]
    {
      assert s[..q] == vis[..q];
    }
  }

  /** Emitting the first `k` pending tails moves them from the buffer into the sequence. */
  lemma AppendTailsClosed(vis: seq<Entry>, tails: seq<NoteRef>, k: nat)
    requires k <= |tails|
    requires HoldsClosed(vis, tails)
    ensures HoldsClosed(vis + TailEntries(tails[..k]), tails[k..])
  {
    var flushed := TailEntries(tails[..k]);
    var s := vis + flushed;
    forall q | 0 <= q < |s| && s[q].Head? && IsHold(s[q].model.data)
      ensures Tail(s[q].model) in s[q + 1..] || s[q].model in tails[k..]
    {
      var m := s[q].model;
      assert q < |vis| && s[q] == vis[q];
      assert s[q + 1..] == vis[q + 1..] + flushed;
      assert tails == tails[..k] + tails[k..];
      if m in tails[..k] {
        var j :| 0 <= j < k && tails[..k][j] == m;
        assert flushed[j] == Tail(m);
      }
    }
  }

  lemma AppendHeadClosed(vis: seq<Entry>, tails: seq<NoteRef>, h: NoteRef, tails': seq<NoteRef>)
    requires HoldsClosed(vis, tails)
    requires forall r :: r in tails ==> r in tails'
    requires IsHold(h.data) ==> h in tails'
    ensures HoldsClosed(vis + [Head(h)], tails')
  {
    var s := vis + [Head(h)];
    forall q | 0 <= q < |s| && s[q].Head? && IsHold(s[q].model.data)
      ensures Tail(s[q].model) in s[q + 1..] || s[q].model in tails'
    {
      if q < |vis| {
        assert s[q] == vis[q];
        assert s[q + 1..] == vis[q + 1..] + [Head(h)];
      }
    }
  }

  /** The pieces a visible step is made of. */
  lemma StepVisibleShape(b: Builder, id: nat, note: NoteData)
    requires IsVisible(note)
    ensures var k := FlushCount(b.tails, note.time);
      var h := NoteRef(id, note);
      Step(b, id, note) == Builder(b.visible + TailEntries(b.tails[..k]) + [Head(h)], b.background, b.holdCount + k,
                                   if IsHold(note) then Inserted(b.tails[k..], h) else b.tails[k..])
  {
  }

  lemma SplitMultiset(tails: seq<NoteRef>, k: nat)
    requires k <= |tails|
    ensures multiset(tails[..k]) + multiset(tails[k..]) == multiset(tails)
  {
    assert tails == tails[..k] + tails[k..];
  }

  lemma SuffixSorted(tails: seq<NoteRef>, k: nat)
    requires k <= |tails| && TailsSorted(tails)
    ensures TailsSorted(tails[k..])
  {
    forall i, j | 0 <= i < j < |tails[k..]|
      ensures EndTime(tails[k..][i].data) <= EndTime(tails[k..][j].data)
    {
      assert tails[k..][i] == tails[k + i] && tails[k..][j] == tails[k + j];
    }
  }

  lemma StepVisibleCounts(b: Builder, k: nat, h: NoteRef, tails': seq<NoteRef>, hold: bool)
    requires k <= |b.tails|
    requires b.holdCount == |Tails(b.visible)|
    requires multiset(tails') == multiset(b.tails[k..]) + (if hold then multiset{h} else multiset{})
    ensures var vis' := b.visible + TailEntries(b.tails[..k]) + [Head(h)];
      && Heads(vis') == Heads(b.visible) + [h]
      && multiset(Tails(vis')) + multiset(tails') ==
           multiset(Tails(b.visible)) + multiset(b.tails) + (if hold then multiset{h} else multiset{})
      && b.holdCount + k == |Tails(vis')|
  {
    FlushedViews(b, k, h);
    SplitMultiset(b.tails, k);
  }

  lemma StepVisibleInv(notes: seq<NoteData>, n: nat, b: Builder)
    requires n < |notes| && Inv(notes, n, b) && IsVisible(notes[n])
    ensures Inv(notes, n + 1, Step(b, n, notes[n]))
  {
    var note := notes[n];
    var k := FlushCount(b.tails, note.time);
    var h := NoteRef(n, note);
    var rest := b.tails[k..];
    var tails' := if IsHold(note) then Inserted(rest, h) else rest;
    StepVisibleShape(b, n, note);
    SuffixSorted(b.tails, k);
    if IsHold(note) {
      InsertedSorted(rest, h);
    }
    assert forall r :: r in rest ==> r in b.tails;
    assert forall r :: r in tails' ==> r in b.tails || r == h;
    StepVisibleCounts(b, k, h, tails', IsHold(note));
    var s := Step(b, n, note);
    var flushed := b.visible + TailEntries(b.tails[..k]);
    assert s.visible == flushed + [Head(h)] && s.tails == tails';
    assert s.background == b.background && s.holdCount == b.holdCount + k;
    assert VisibleRefs(notes, n + 1) == VisibleRefs(notes, n) + [h];
    assert Invisible(notes, n + 1) == Invisible(notes, n);
    assert multiset(VisibleHoldRefs(notes, n + 1)) ==
           multiset(VisibleHoldRefs(notes, n)) + (if IsHold(note) then multiset{h} else multiset{});
    assert forall r :: r in b.tails[..k] ==> r in b.tails;
    AppendTailsFollow(b.visible, b.tails[..k]);
    AppendHeadFollow(flushed, h);
    AppendTailsClosed(b.visible, b.tails, k);
    AppendHeadClosed(flushed, rest, h, tails');
  }
  lemma StepInv(notes: seq<NoteData>, n: nat, b: Builder)
    requires n < |notes| && Inv(notes, n, b)
    ensures Inv(notes, n + 1, Step(b, n, notes[n]))
  {
    if IsVisible(notes[n]) {
      StepVisibleInv(notes, n, b);
    }
  }

  lemma RunInv(notes: seq<NoteData>, n: nat)
    requires n <= |notes|
    ensures Inv(notes, n, Run(notes, n))
  {
    var m := 0;
    while m < n
      invariant m <= n && Inv(notes, m, Run(notes, m))
    {
      StepInv(notes, m, Run(notes, m));
      m := m + 1;
    }
  }

  /** What the finished projection satisfies. */
  ghost predicate Complete(notes: seq<NoteData>, p: Builder) {
    && Heads(p.visible) == VisibleRefs(notes, |notes|)
    && p.background == Invisible(notes, |notes|)
    && multiset(Tails(p.visible)) == multiset(VisibleHoldRefs(notes, |notes|))
    && p.holdCount == |Tails(p.visible)|
    && p.tails == []
    && TailsFollowHeads(p.visible)
    && HoldsClosed(p.visible, [])
  }

  lemma BuildComplete(notes: seq<NoteData>)
    ensures Complete(notes, Build(notes))
  {
    var b := Run(notes, |notes|);
    RunInv(notes, |notes|);
    HeadsTailsAppend(b.visible, TailEntries(b.tails));
    TailEntriesViews(b.tails);
    AppendTailsFollow(b.visible, b.tails);
    AppendTailsClosed(b.visible, b.tails, |b.tails|);
    assert b.tails[..|b.tails|] == b.tails;
  }
  // ---------------------------------------------------------------------------
  // Properties of the projection

  /** The heads are the visible input notes, in input order, each exactly once. */
  lemma BuildHeads(notes: seq<NoteData>)
    ensures Heads(Build(notes).visible) == VisibleRefs(notes, |notes|)
  {
    BuildComplete(notes);
  }

  /** The background is the invisible input notes, in input order. */
  lemma BuildBackground(notes: seq<NoteData>)
    ensures Build(notes).background == Invisible(notes, |notes|)
  {
    BuildComplete(notes);
  }

  /** Each visible hold of the input gets exactly one tail; nothing else (an
      invisible hold, a non-hold) gets any. */
  lemma BuildTailsOnce(notes: seq<NoteData>, r: NoteRef)
    ensures multiset(Tails(Build(notes).visible))[r] ==
              if IsInputRef(notes, r) && IsVisible(r.data) && IsHold(r.data) then 1 else 0
  {
    BuildComplete(notes);
    VisibleHoldRefsOccurrences(notes, |notes|, r);
  }

  /** `_holdCount` is the number of tails emitted, which is the number of visible holds. */
  lemma BuildHoldCount(notes: seq<NoteData>)
    ensures Build(notes).holdCount == |Tails(Build(notes).visible)| == |VisibleHoldRefs(notes, |notes|)|
  {
    BuildComplete(notes);
    var p := Build(notes);
    assert |multiset(Tails(p.visible))| == |multiset(VisibleHoldRefs(notes, |notes|))|;
  }

  /** `NoteCount` (`Count` minus `_holdCount`) is the number of heads. */
  lemma BuildNoteCount(notes: seq<NoteData>)
    ensures |Build(notes).visible| - Build(notes).holdCount == |Heads(Build(notes).visible)|
  {
    BuildComplete(notes);
    HeadsTailsCount(Build(notes).visible);
  }

  /** Every tail comes after its head, and every hold head is followed by its tail. */
  lemma BuildTailsAfterHeads(notes: seq<NoteData>)
    ensures TailsFollowHeads(Build(notes).visible)
    ensures forall q :: 0 <= q < |Build(notes).visible| && Build(notes).visible[q].Head? &&
                        IsHold(Build(notes).visible[q].model.data) ==>
              Tail(Build(notes).visible[q].model) in Build(notes).visible[q + 1..]
  {
    BuildComplete(notes);
  }

  // ---------------------------------------------------------------------------
  // Time order

  /** The caller's guarantee: the flat list is non-decreasing by time. */
  ghost predicate NotesOrdered(notes: seq<NoteData>) {
    forall i, j :: 0 <= i < j < |notes| ==> notes[i].time <= notes[j].time
  }

  /** `NoteTimeComparer.AssertInOrder` on the visible sequence. */
  ghost predicate EntriesOrdered(s: seq<Entry>) {
    forall i, j :: 0 <= i < j < |s| ==> EntryTime(s[i]) <= EntryTime(s[j])
  }

  lemma EntriesOrderedAppend(a: seq<Entry>, b: seq<Entry>)
    requires EntriesOrdered(a) && EntriesOrdered(b)
    requires a != [] && b != [] ==> EntryTime(Last(a)) <= EntryTime(b[0])
    ensures EntriesOrdered(a + b)
  {
    forall i, j | 0 <= i < j < |a + b|
      ensures EntryTime((a + b)[i]) <= EntryTime((a + b)[j])
    {
      if i < |a| && j >= |a| {
        assert EntryTime(a[i]) <= EntryTime(Last(a));
        assert EntryTime(b[0]) <= EntryTime(b[j - |a|]);
      }
    }
  }

  lemma NotesOrderedAppend(a: seq<NoteData>, x: NoteData)
    requires NotesOrdered(a)
    requires forall y :: y in a ==> y.time <= x.time
    ensures NotesOrdered(a + [x])
  {
    assert forall i :: 0 <= i < |a| ==> a[i] in a;
  }

  lemma TailEntriesOrdered(tails: seq<NoteRef>)
    requires TailsSorted(tails)
    ensures EntriesOrdered(TailEntries(tails))
  {
  }

  lemma {:induction false} InvisibleOrdered(notes: seq<NoteData>, n: nat)
    requires n <= |notes| && NotesOrdered(notes)
    ensures NotesOrdered(Invisible(notes, n))
    ensures forall y :: y in Invisible(notes, n) ==> forall m :: n <= m < |notes| ==> y.time <= notes[m].time
  {
    if n > 0 {
      InvisibleOrdered(notes, n - 1);
      if !IsVisible(notes[n - 1]) {
        NotesOrderedAppend(Invisible(notes, n - 1), notes[n - 1]);
      }
    }
  }

  /** The ordering facts the pass keeps: the visible sequence is ordered and
      no pending tail ends before its last entry. */
  ghost predicate OrderInv(b: Builder) {
    && EntriesOrdered(b.visible)
    && TailsSorted(b.tails)
    && (forall r :: r in b.tails ==> b.visible != [] && EntryTime(Last(b.visible)) <= EndTime(r.data))
  }

  /** The last visible entry is not later than `time`. */
  ghost predicate LastBefore(b: Builder, time: real) {
    b.visible != [] ==> EntryTime(Last(b.visible)) <= time
  }

  /** The visible sequence stays ordered across a flush and a head at `time`. */
  lemma FlushOrdered(vis: seq<Entry>, tails: seq<NoteRef>, k: nat, h: NoteRef)
    requires k == FlushCount(tails, h.data.time)
    requires EntriesOrdered(vis) && TailsSorted(tails)
    requires vis != [] ==> EntryTime(Last(vis)) <= h.data.time
    requires forall r :: r in tails ==> vis != [] && EntryTime(Last(vis)) <= EndTime(r.data)
    ensures EntriesOrdered(vis + TailEntries(tails[..k]) + [Head(h)])
  {
    if k > 0 {
      FlushSomeOrdered(vis, tails, k, h);
    } else {
      assert vis + TailEntries(tails[..k]) == vis;
      EntriesOrderedAppend(vis, [Head(h)]);
    }
  }

  /** `FlushOrdered` when at least one tail is flushed. */
  lemma FlushSomeOrdered(vis: seq<Entry>, tails: seq<NoteRef>, k: nat, h: NoteRef)
    requires 0 < k == FlushCount(tails, h.data.time)
    requires EntriesOrdered(vis) && TailsSorted(tails)
    requires forall r :: r in tails ==> vis != [] && EntryTime(Last(vis)) <= EndTime(r.data)
    ensures EntriesOrdered(vis + TailEntries(tails[..k]) + [Head(h)])
  {
    var flushed := TailEntries(tails[..k]);
    assert TailsSorted(tails[..k]);
    TailEntriesOrdered(tails[..k]);
    assert tails[0] in tails;
    EntriesOrderedAppend(vis, flushed);
    assert Last(vis + flushed) == Tail(tails[k - 1]);
    EntriesOrderedAppend(vis + flushed, [Head(h)]);
  }

  /** What stays pending after a flush at `time` ends at or after `time`. */
  lemma PendingAfterFlush(tails: seq<NoteRef>, k: nat, h: NoteRef, tails': seq<NoteRef>)
    requires TailsSorted(tails) && k == FlushCount(tails, h.data.time)
    requires forall r :: r in tails' ==> r in tails[k..] || (r == h && IsHold(h.data))
    ensures forall r :: r in tails' ==> h.data.time <= EndTime(r.data)
  {
    forall r | r in tails'
      ensures h.data.time <= EndTime(r.data)
    {
      if r in tails[k..] {
        var j :| 0 <= j < |tails[k..]| && tails[k..][j] == r;
        assert EndTime(tails[k].data) <= EndTime(tails[k + j].data);
      }
    }
  }

  /** A visible step, piece by piece: the flushed sequence with the new head
      is ordered, ends at the head's time, and ends no later than any tail
      still pending. */
  lemma VisibleStepOrdered(vis: seq<Entry>, tails: seq<NoteRef>, k: nat, h: NoteRef, tails': seq<NoteRef>)
    requires k == FlushCount(tails, h.data.time)
    requires EntriesOrdered(vis) && TailsSorted(tails)
    requires vis != [] ==> EntryTime(Last(vis)) <= h.data.time
    requires forall r :: r in tails ==> vis != [] && EntryTime(Last(vis)) <= EndTime(r.data)
    requires forall r :: r in tails' ==> r in tails[k..] || (r == h && IsHold(h.data))
    ensures var vis' := vis + TailEntries(tails[..k]) + [Head(h)];
      && EntriesOrdered(vis')
      && EntryTime(Last(vis')) == h.data.time
      && forall r :: r in tails' ==> EntryTime(Last(vis')) <= EndTime(r.data)
  {
    FlushOrdered(vis, tails, k, h);
    PendingAfterFlush(tails, k, h, tails');
  }

  lemma StepOrder(b: Builder, id: nat, note: NoteData)
    requires OrderInv(b) && LastBefore(b, note.time)
    ensures OrderInv(Step(b, id, note)) && LastBefore(Step(b, id, note), note.time)
  {
    if IsVisible(note) {
      var k := FlushCount(b.tails, note.time);
      var h := NoteRef(id, note);
      var rest := b.tails[k..];
      var tails' := if IsHold(note) then Inserted(rest, h) else rest;
      StepVisibleShape(b, id, note);
      SuffixSorted(b.tails, k);
      if IsHold(note) {
        InsertedSorted(rest, h);
      }
      VisibleStepOrdered(b.visible, b.tails, k, h, tails');
    }
  }

  lemma RunOrder(notes: seq<NoteData>, n: nat)
    requires n <= |notes| && NotesOrdered(notes)
    ensures OrderInv(Run(notes, n))
    ensures n < |notes| ==> LastBefore(Run(notes, n), notes[n].time)
  {
    var m := 0;
    while m < n
      invariant m <= n && OrderInv(Run(notes, m))
      invariant m < |notes| ==> LastBefore(Run(notes, m), notes[m].time)
    {
      StepOrder(Run(notes, m), m, notes[m]);
      if m + 1 < |notes| {
        assert notes[m].time <= notes[m + 1].time;
      }
      m := m + 1;
    }
  }

  /** Over a time-ordered input both output sequences are time-ordered, when a
      tail is taken to stand at its hold's end time. */
  lemma BuildOrdered(notes: seq<NoteData>)
    requires NotesOrdered(notes)
    ensures EntriesOrdered(Build(notes).visible)
    ensures NotesOrdered(Build(notes).background)
  {
    var b := Run(notes, |notes|);
    RunOrder(notes, |notes|);
    RunInv(notes, |notes|);
    TailEntriesOrdered(b.tails);
    if b.visible != [] && b.tails != [] {
      assert b.tails[0] in b.tails;
    }
    EntriesOrderedAppend(b.visible, TailEntries(b.tails));
    InvisibleOrdered(notes, |notes|);
  }

  /** The flush before a visible head takes every pending tail that ends
      strictly before the head's time and only those; a tail ending exactly at
      that time stays pending, so it is emitted after the head. */
  lemma StepFlush(notes: seq<NoteData>, n: nat, b: Builder)
    requires n < |notes| && Inv(notes, n, b) && IsVisible(notes[n])
    ensures var k := FlushCount(b.tails, notes[n].time);
      && Step(b, n, notes[n]).visible == b.visible + TailEntries(b.tails[..k]) + [Head(NoteRef(n, notes[n]))]
      && (forall r :: r in b.tails[..k] ==> EndTime(r.data) < notes[n].time)
      && (forall r :: r in b.tails[k..] ==> EndTime(r.data) >= notes[n].time)
  {
    var k := FlushCount(b.tails, notes[n].time);
    FlushSplitsAtTime(b.tails, notes[n].time);
    forall r | r in b.tails[k..]
      ensures EndTime(r.data) >= notes[n].time
    {
      var j :| 0 <= j < |b.tails[k..]| && b.tails[k..][j] == r;
      assert b.tails[k + j] == r;
    }
  }

  // ---------------------------------------------------------------------------
  // Worked examples

  /** A visible hold, a visible head starting before the hold ends and one
      starting after it: the tail is emitted between the two heads. */
  lemma HoldTailBeforeLaterHead(hold: NoteData, inside: NoteData, after: NoteData)
    requires IsVisible(hold) && IsVisible(inside) && IsVisible(after)
    requires IsHold(hold) && !IsHold(inside) && !IsHold(after)
    requires inside.time <= EndTime(hold) < after.time
    ensures var notes := [hold, inside, after];
      var p := Build(notes);
      && p.visible == [Head(NoteRef(0, hold)), Head(NoteRef(1, inside)), Tail(NoteRef(0, hold)), Head(NoteRef(2, after))]
      && p.background == []
      && p.holdCount == 1
      && |p.visible| - p.holdCount == 3
  {
    var notes := [hold, inside, after];
    var r0, r1, r2 := NoteRef(0, hold), NoteRef(1, inside), NoteRef(2, after);
    HoldThenInside(hold, inside, after);
    assert FlushCount([r0], after.time) == 1;
    assert TailEntries([r0]) == [Tail(r0)];
    assert Run(notes, 3) == Builder([Head(r0), Head(r1), Tail(r0), Head(r2)], [], 1, []);
  }

  /** The first two steps of `HoldTailBeforeLaterHead`: the hold's tail stays
      pending past a head that starts before the hold ends. */
  lemma HoldThenInside(hold: NoteData, inside: NoteData, after: NoteData)
    requires IsVisible(hold) && IsVisible(inside) && IsHold(hold) && !IsHold(inside)
    requires inside.time <= EndTime(hold)
    ensures Run([hold, inside, after], 2) ==
      Builder([Head(NoteRef(0, hold)), Head(NoteRef(1, inside))], [], 0, [NoteRef(0, hold)])
  {
    var notes := [hold, inside, after];
    var r0 := NoteRef(0, hold);
    assert Run(notes, 1) == Builder([Head(r0)], [], 0, [r0]);
    assert FlushCount([r0], inside.time) == 0;
  }

  /** A note off stage goes to the background only. */
  lemma OffStageNoteInBackground(note: NoteData)
    requires !IsVisible(note)
    ensures Build([note]).visible == [] && Build([note]).background == [note]
  {
    assert Run([note], 1) == Builder([], [note], 0, []);
  }
}
