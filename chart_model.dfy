/** `ChartModel`: a chart's header fields, its data, and the projection that
    `SetData` builds from the data's notes; `CloneForSave` and the save-time
    merge of the projection back into one note list. */
module ChartModels {
  import opened Common
  import opened NoteDatas
  import opened Projection
  import opened ChartDatas

  // ---------------------------------------------------------------------------
  // The projection pass with its loops

  /** `InsertInOrder`: scan to the first pending tail ending strictly later and insert there. */
  method InsertInOrder(tails: seq<NoteRef>, note: NoteRef) returns (r: seq<NoteRef>)
    ensures r == Inserted(tails, note)
  {
    var endTime := EndTime(note.data);
    var i := 0;
    while i < |tails| && !(EndTime(tails[i].data) > endTime)
      invariant i <= |tails|
      invariant forall j :: 0 <= j < i ==> EndTime(tails[j].data) <= endTime
    {
      i := i + 1;
    }
    r := tails[..i] + [note] + tails[i..];
  }

  /** The `while` before a visible head: emit and drop the leading pending
      tails that end strictly before `time`, counting each one. */
  method FlushBefore(visible: seq<Entry>, holdCount: nat, tails: seq<NoteRef>, time: real)
    returns (visible': seq<Entry>, holdCount': nat, tails': seq<NoteRef>)
    ensures var k := FlushCount(tails, time);
      visible' == visible + TailEntries(tails[..k]) && holdCount' == holdCount + k && tails' == tails[k..]
  {
    ghost var k := FlushCount(tails, time);
    visible', holdCount', tails' := visible, holdCount, tails;
    ghost var j := 0;
    while tails' != [] && EndTime(tails'[0].data) < time
      invariant j <= k <= |tails|
      invariant tails' == tails[j..] && FlushCount(tails', time) == k - j
      invariant visible' == visible + TailEntries(tails[..j]) && holdCount' == holdCount + j
      decreases |tails'|
    {
      TailEntriesSnoc(tails, j);
      visible' := visible' + [Tail(tails'[0])];
      holdCount' := holdCount' + 1;
      tails' := tails'[1..];
      j := j + 1;
    }
  }

  /** The `foreach` after the last note: emit every pending tail in buffer order. */
  method FlushAll(visible: seq<Entry>, holdCount: nat, tails: seq<NoteRef>)
    returns (visible': seq<Entry>, holdCount': nat)
    ensures visible' == visible + TailEntries(tails) && holdCount' == holdCount + |tails|
  {
    visible', holdCount' := visible, holdCount;
    for j := 0 to |tails|
      invariant visible' == visible + TailEntries(tails[..j]) && holdCount' == holdCount + j
    {
      TailEntriesSnoc(tails, j);
      visible' := visible' + [Tail(tails[j])];
      holdCount' := holdCount' + 1;
    }
    assert tails[..|tails|] == tails;
  }

  /** One iteration of the `foreach` of `SetData`: the note goes to the
      background, or its head is emitted after the tails that end before it
      and, for a hold, its tail is buffered. */
  method ProjectNote(visible: seq<Entry>, background: seq<NoteData>, holdCount: nat, tails: seq<NoteRef>,
                     id: nat, note: NoteData)
    returns (visible': seq<Entry>, background': seq<NoteData>, holdCount': nat, tails': seq<NoteRef>)
    ensures Builder(visible', background', holdCount', tails') == Step(Builder(visible, background, holdCount, tails), id, note)
  {
    visible', background', holdCount', tails' := visible, background, holdCount, tails;
    if IsVisible(note) {
      StepVisibleShape(Builder(visible, background, holdCount, tails), id, note);
      visible', holdCount', tails' := FlushBefore(visible, holdCount, tails, note.time);
      var head := NoteRef(id, note);
      visible' := visible' + [Head(head)];
      if IsHold(note) {
        tails' := InsertInOrder(tails', head);
      }
    } else {
      background' := background + [note];
    }
  }

  /** The `foreach` of `SetData` and the final flush; its result is `Build(notes)`. */
  method BuildProjection(notes: seq<NoteData>) returns (visible: seq<Entry>, background: seq<NoteData>, holdCount: nat)
    ensures Builder(visible, background, holdCount, []) == Build(notes)
  {
    visible, background, holdCount := [], [], 0;
    var tails: seq<NoteRef> := [];
    var i := 0;
    while i < |notes|
      invariant i <= |notes|
      invariant Builder(visible, background, holdCount, tails) == Run(notes, i)
    {
      visible, background, holdCount, tails := ProjectNote(visible, background, holdCount, tails, i, notes[i]);
      i := i + 1;
    }
    visible, holdCount := FlushAll(visible, holdCount, tails);
  }

  // ---------------------------------------------------------------------------
  // The save-time merge

  /** The notes of the heads of a visible sequence, in order: tails are dropped. */
  function HeadNotes(vis: seq<Entry>): seq<NoteData> {
    if vis == [] then [] else (if vis[0].Head? then [vis[0].model.data] else []) + HeadNotes(vis[1..])
  }

  lemma {:induction false} HeadNotesAppend(a: seq<Entry>, b: seq<Entry>)
    ensures HeadNotes(a + b) == HeadNotes(a) + HeadNotes(b)
  {
    if a == [] {
      assert a + b == b;
    } else {
      var first := if a[0].Head? then [a[0].model.data] else [];
      assert (a + b)[0] == a[0] && (a + b)[1..] == a[1..] + b;
      HeadNotesAppend(a[1..], b);
      assert HeadNotes(a + b) == first + (HeadNotes(a[1..]) + HeadNotes(b));
    }
  }

  /** The stable two-way merge by time; the visible note goes first on a tie. */
  function Merge(front: seq<NoteData>, back: seq<NoteData>): seq<NoteData>
    decreases |front| + |back|
  {
    if front == [] then back
    else if back == [] then front
    else if front[0].time <= back[0].time then [front[0]] + Merge(front[1..], back)
    else [back[0]] + Merge(front, back[1..])
  }

  /** `MergeNotes`: the heads of the visible sequence merged with the background. */
  function MergeNotes(visible: seq<Entry>, background: seq<NoteData>): seq<NoteData> {
    Merge(HeadNotes(visible), background)
  }

  /** The merge emits every note of both inputs exactly once. */
  lemma {:induction false} MergePermutation(front: seq<NoteData>, back: seq<NoteData>)
    ensures |Merge(front, back)| == |front| + |back|
    ensures multiset(Merge(front, back)) == multiset(front) + multiset(back)
    decreases |front| + |back|
  {
    if front != [] && back != [] {
      if front[0].time <= back[0].time {
        MergePermutation(front[1..], back);
        TakeFirst(front, back, Merge(front[1..], back));
      } else {
        MergePermutation(front, back[1..]);
        TakeFirst(back, front, Merge(front, back[1..]));
      }
    }
  }

  /** Putting the first element of `xs` before a permutation of the rest of
      `xs` and `ys` gives a permutation of `xs` and `ys`. */
  lemma TakeFirst<T>(xs: seq<T>, ys: seq<T>, rest: seq<T>)
    requires xs != [] && multiset(rest) == multiset(xs[1..]) + multiset(ys)
    ensures |[xs[0]] + rest| == |xs| + |ys|
    ensures multiset([xs[0]] + rest) == multiset(xs) + multiset(ys)
  {
    assert xs == [xs[0]] + xs[1..];
    assert |rest| == |multiset(rest)|;
  }

  /** Every note of a merge is, in time, not earlier than the earlier of the two input fronts. */
  lemma {:induction false} MergeBounded(front: seq<NoteData>, back: seq<NoteData>, t: real)
    requires forall x :: x in front ==> t <= x.time
    requires forall x :: x in back ==> t <= x.time
    ensures forall x :: x in Merge(front, back) ==> t <= x.time
  {
    MergePermutation(front, back);
    forall x | x in Merge(front, back)
      ensures t <= x.time
    {
      assert x in multiset(Merge(front, back));
    }
  }

  /** Merging two time-ordered lists gives a time-ordered list. */
  lemma {:induction false} MergeOrdered(front: seq<NoteData>, back: seq<NoteData>)
    requires NotesOrdered(front) && NotesOrdered(back)
    ensures NotesOrdered(Merge(front, back))
    decreases |front| + |back|
  {
    if front != [] && back != [] {
      var x, f', b' := front[0], front[1..], back[1..];
      if x.time <= back[0].time {
        MergeOrdered(f', back);
        assert forall y :: y in f' ==> x.time <= y.time by {
          forall y | y in f' ensures x.time <= y.time {
            var i :| 0 <= i < |f'| && f'[i] == y;
            assert front[i + 1] == y;
          }
        }
        assert forall y :: y in back ==> x.time <= y.time by {
          forall y | y in back ensures x.time <= y.time {
            var i :| 0 <= i < |back| && back[i] == y;
          }
        }
        MergeBounded(f', back, x.time);
        MergeHeadOrdered(x, Merge(f', back));
      } else {
        var y := back[0];
        MergeOrdered(front, b');
        assert forall z :: z in front ==> y.time <= z.time by {
          forall z | z in front ensures y.time <= z.time {
            var i :| 0 <= i < |front| && front[i] == z;
          }
        }
        assert forall z :: z in b' ==> y.time <= z.time by {
          forall z | z in b' ensures y.time <= z.time {
            var i :| 0 <= i < |b'| && b'[i] == z;
            assert back[i + 1] == z;
          }
        }
        MergeBounded(front, b', y.time);
        MergeHeadOrdered(y, Merge(front, b'));
      }
    }
  }

  lemma MergeHeadOrdered(x: NoteData, s: seq<NoteData>)
    requires NotesOrdered(s)
    requires forall y :: y in s ==> x.time <= y.time
    ensures NotesOrdered([x] + s)
  {
    forall i, j | 0 <= i < j < |[x] + s|
      ensures ([x] + s)[i].time <= ([x] + s)[j].time
    {
      if i == 0 {
        assert s[j - 1] in s;
      }
    }
  }

  /** The notes of a list at exactly time `t`, in order. */
  function AtTime(s: seq<NoteData>, t: real): seq<NoteData> {
    if s == [] then [] else (if s[0].time == t then [s[0]] else []) + AtTime(s[1..], t)
  }

  /** Stability of the merge: among notes with equal time, every visible note
      comes before every background note, and each side keeps its own order. */
  lemma {:induction false} MergeStableAtTime(front: seq<NoteData>, back: seq<NoteData>, t: real)
    requires NotesOrdered(front)
    ensures AtTime(Merge(front, back), t) == AtTime(front, t) + AtTime(back, t)
    decreases |front| + |back|
  {
    if front == [] {
    } else if back == [] {
      assert AtTime(back, t) == [];
    } else if front[0].time <= back[0].time {
      MergeStableAtTime(front[1..], back, t);
      assert ([front[0]] + Merge(front[1..], back))[1..] == Merge(front[1..], back);
    } else {
      MergeStableAtTime(front, back[1..], t);
      assert ([back[0]] + Merge(front, back[1..]))[1..] == Merge(front, back[1..]);
      if back[0].time == t {
        NoneAtEarlierTime(front, t);
      }
    }
  }

  /** A time-ordered list whose first note is later than `t` has no note at `t`. */
  lemma {:induction false} NoneAtEarlierTime(s: seq<NoteData>, t: real)
    requires NotesOrdered(s) && s != [] && s[0].time > t
    ensures AtTime(s, t) == []
  {
    if |s| > 1 {
      assert s[0].time <= s[1].time;
      NoneAtEarlierTime(s[1..], t);
    }
  }

  /** The heads of a visible sequence that `NoteTimeComparer` accepts are in time order. */
  lemma {:induction false} HeadNotesOrdered(vis: seq<Entry>)
    requires EntriesOrdered(vis)
    ensures NotesOrdered(HeadNotes(vis))
    ensures forall x :: x in HeadNotes(vis) ==> vis != [] && EntryTime(vis[0]) <= x.time
  {
    if vis != [] {
      assert EntriesOrdered(vis[1..]);
      HeadNotesOrdered(vis[1..]);
      forall x | x in HeadNotes(vis[1..])
        ensures EntryTime(vis[0]) <= x.time
      {
        assert EntryTime(vis[0]) <= EntryTime(vis[1]);
      }
      if vis[0].Head? {
        MergeHeadOrdered(vis[0].model.data, HeadNotes(vis[1..]));
      }
    }
  }

  /** The save merge of a built projection contains every input note exactly once. */
  lemma SaveMergeKeepsEveryNote(notes: seq<NoteData>)
    ensures multiset(MergeNotes(Build(notes).visible, Build(notes).background)) == multiset(notes)
  {
    var p := Build(notes);
    BuildComplete(notes);
    HeadNotesOfHeads(p.visible);
    MergePermutation(HeadNotes(p.visible), p.background);
    PartitionOfInput(notes);
  }

  /** The notes of the references, in order. */
  function DataOf(refs: seq<NoteRef>): seq<NoteData> {
    if refs == [] then [] else [refs[0].data] + DataOf(refs[1..])
  }

  lemma {:induction false} DataOfAppend(a: seq<NoteRef>, b: seq<NoteRef>)
    ensures DataOf(a + b) == DataOf(a) + DataOf(b)
  {
    if a == [] {
      assert a + b == b;
    } else {
      assert (a + b)[1..] == a[1..] + b;
      DataOfAppend(a[1..], b);
    }
  }

  lemma {:induction false} HeadNotesOfHeads(vis: seq<Entry>)
    ensures HeadNotes(vis) == DataOf(Heads(vis))
  {
    if vis != [] {
      HeadNotesOfHeads(vis[1..]);
      if vis[0].Head? {
        DataOfAppend([vis[0].model], Heads(vis[1..]));
      } else {
        assert Heads(vis) == Heads(vis[1..]);
      }
    }
  }

  /** Input note `m` goes either to the visible or to the invisible notes. */
  lemma PartitionStep(notes: seq<NoteData>, m: nat)
    requires m < |notes|
    ensures multiset(DataOf(VisibleRefs(notes, m + 1))) + multiset(Invisible(notes, m + 1)) ==
              multiset(DataOf(VisibleRefs(notes, m))) + multiset(Invisible(notes, m)) + multiset{notes[m]}
  {
    var x := notes[m];
    if IsVisible(x) {
      assert VisibleRefs(notes, m + 1) == VisibleRefs(notes, m) + [NoteRef(m, x)];
      assert Invisible(notes, m + 1) == Invisible(notes, m);
      DataOfAppend(VisibleRefs(notes, m), [NoteRef(m, x)]);
      assert DataOf([NoteRef(m, x)]) == [x];
    } else {
      assert VisibleRefs(notes, m + 1) == VisibleRefs(notes, m);
      assert Invisible(notes, m + 1) == Invisible(notes, m) + [x];
    }
  }

  lemma PrefixSnoc<T>(s: seq<T>, k: nat)
    requires k < |s|
    ensures multiset(s[..k + 1]) == multiset(s[..k]) + multiset{s[k]}
  {
    assert s[..k + 1] == s[..k] + [s[k]];
  }

  /** The visible and the invisible notes of the first `m` inputs together are those inputs. */
  lemma {:induction false} PartitionOfPrefix(notes: seq<NoteData>, m: nat)
    requires m <= |notes|
    ensures multiset(DataOf(VisibleRefs(notes, m))) + multiset(Invisible(notes, m)) == multiset(notes[..m])
    decreases m
  {
    if m > 0 {
      var k := m - 1;
      PartitionOfPrefix(notes, k);
      PartitionStep(notes, k);
      var before := multiset(DataOf(VisibleRefs(notes, k))) + multiset(Invisible(notes, k));
      assert before == multiset(notes[..k]);
      PrefixSnoc(notes, k);
    }
  }

  /** The visible and the invisible notes together are the input. */
  lemma PartitionOfInput(notes: seq<NoteData>)
    ensures multiset(DataOf(VisibleRefs(notes, |notes|))) + multiset(Invisible(notes, |notes|)) == multiset(notes)
  {
    PartitionOfPrefix(notes, |notes|);
    assert notes[..|notes|] == notes;
  }

  /** Over a time-ordered input, the save merge of its projection is time-ordered. */
  lemma SaveMergeOrdered(notes: seq<NoteData>)
    requires NotesOrdered(notes)
    ensures NotesOrdered(MergeNotes(Build(notes).visible, Build(notes).background))
  {
    BuildOrdered(notes);
    HeadNotesOrdered(Build(notes).visible);
    MergeOrdered(HeadNotes(Build(notes).visible), Build(notes).background);
  }

  lemma HeadNotesAtHead(vis: seq<Entry>, i: nat)
    requires i < |vis| && vis[i].Head?
    ensures HeadNotes(vis[i..]) == [vis[i].model.data] + HeadNotes(vis[i + 1..])
  {
    assert vis[i..][1..] == vis[i + 1..];
  }

  lemma MergeCons(f: NoteData, fs: seq<NoteData>, b: NoteData, bs: seq<NoteData>)
    ensures Merge([f] + fs, [b] + bs) ==
              if f.time <= b.time then [f] + Merge(fs, [b] + bs) else [b] + Merge([f] + fs, bs)
  {
    assert ([f] + fs)[1..] == fs;
    assert ([b] + bs)[1..] == bs;
  }

  /** One step of the merge on the cursors `i` (at a head) and `j`. */
  lemma MergeStep(visible: seq<Entry>, i: nat, background: seq<NoteData>, j: nat)
    requires i < |visible| && visible[i].Head? && j < |background|
    ensures var f := visible[i].model.data;
      Merge(HeadNotes(visible[i..]), background[j..]) ==
        if f.time <= background[j].time then [f] + Merge(HeadNotes(visible[i + 1..]), background[j..])
        else [background[j]] + Merge(HeadNotes(visible[i..]), background[j + 1..])
  {
    HeadNotesAtHead(visible, i);
    assert background[j..] == [background[j]] + background[j + 1..];
    MergeCons(visible[i].model.data, HeadNotes(visible[i + 1..]), background[j], background[j + 1..]);
  }

  /** The compare-and-advance part of `MergeNotes`, until one side is exhausted. */
  method MergeWhileBoth(visible: seq<Entry>, background: seq<NoteData>) returns (merged: seq<NoteData>, i: nat, j: nat)
    ensures i <= |visible| && j <= |background| && (i == |visible| || j == |background|)
    ensures i < |visible| ==> visible[i].Head?
    ensures merged + Merge(HeadNotes(visible[i..]), background[j..]) == MergeNotes(visible, background)
  {
    merged := [];
    i := NextHead(visible, 0);
    j := 0;
    assert visible[0..] == visible;
    assert background[0..] == background;
    while i < |visible| && j < |background|
      invariant i <= |visible| && j <= |background|
      invariant i < |visible| ==> visible[i].Head?
      invariant merged + Merge(HeadNotes(visible[i..]), background[j..]) == MergeNotes(visible, background)
      decreases |visible| - i + |background| - j
    {
      var f := visible[i].model.data;
      if f.time <= background[j].time {
        var k := NextHead(visible, i + 1);
        MergeTakeFront(visible, i, k, background, j, merged, MergeNotes(visible, background));
        merged := merged + [f];
        i := k;
      } else {
        MergeTakeBack(visible, i, background, j, merged, MergeNotes(visible, background));
        merged := merged + [background[j]];
        j := j + 1;
      }
    }
  }

  /** Taking the visible head `i` keeps the merge invariant on the cursors `k` and `j`. */
  lemma MergeTakeFront(visible: seq<Entry>, i: nat, k: nat, background: seq<NoteData>, j: nat,
                       merged: seq<NoteData>, total: seq<NoteData>)
    requires i < |visible| && visible[i].Head? && j < |background|
    requires visible[i].model.data.time <= background[j].time
    requires i + 1 <= k <= |visible| && HeadNotes(visible[i + 1..]) == HeadNotes(visible[k..])
    requires merged + Merge(HeadNotes(visible[i..]), background[j..]) == total
    ensures (merged + [visible[i].model.data]) + Merge(HeadNotes(visible[k..]), background[j..]) == total
  {
    MergeStep(visible, i, background, j);
  }

  /** Taking background note `j` keeps the merge invariant on the cursors `i` and `j + 1`. */
  lemma MergeTakeBack(visible: seq<Entry>, i: nat, background: seq<NoteData>, j: nat,
                      merged: seq<NoteData>, total: seq<NoteData>)
    requires i < |visible| && visible[i].Head? && j < |background|
    requires !(visible[i].model.data.time <= background[j].time)
    requires merged + Merge(HeadNotes(visible[i..]), background[j..]) == total
    ensures (merged + [background[j]]) + Merge(HeadNotes(visible[i..]), background[j + 1..]) == total
  {
    MergeStep(visible, i, background, j);
  }

  /** `MergeNotes` with its two enumerators: a cursor into the visible
      sequence that skips tails and a cursor into the background. */
  method MergeProjection(visible: seq<Entry>, background: seq<NoteData>) returns (merged: seq<NoteData>)
    ensures merged == MergeNotes(visible, background)
  {
    var i, j;
    merged, i, j := MergeWhileBoth(visible, background);
    if i < |visible| {
      assert background[j..] == [];
      var rest := RemainingHeads(visible, i);
      merged := merged + rest;
    } else {
      assert HeadNotes(visible[i..]) == [];
      while j < |background|
        invariant j <= |background|
        invariant merged + background[j..] == MergeNotes(visible, background)
      {
        assert background[j..] == [background[j]] + background[j + 1..];
        merged := merged + [background[j]];
        j := j + 1;
      }
    }
  }

  /** The `do`/`while` over the visible enumerator once the background is exhausted. */
  method RemainingHeads(visible: seq<Entry>, i: nat) returns (rest: seq<NoteData>)
    requires i <= |visible| && (i < |visible| ==> visible[i].Head?)
    ensures rest == HeadNotes(visible[i..])
  {
    rest := [];
    var k := i;
    while k < |visible|
      invariant i <= k <= |visible| && (k < |visible| ==> visible[k].Head?)
      invariant rest + HeadNotes(visible[k..]) == HeadNotes(visible[i..])
      decreases |visible| - k
    {
      HeadNotesAtHead(visible, k);
      rest := rest + [visible[k].model.data];
      k := NextHead(visible, k + 1);
    }
    assert HeadNotes(visible[k..]) == [];
  }

  /** `MoveNextOfNoteHeadModel`: the first head at or after `from`, skipping
      tails, or the end; the skipped tails contribute no notes. */
  method NextHead(visible: seq<Entry>, from: nat) returns (k: nat)
    requires from <= |visible|
    ensures from <= k <= |visible|
    ensures k < |visible| ==> visible[k].Head?
    ensures forall m :: from <= m < k ==> visible[m].Tail?
    ensures HeadNotes(visible[from..]) == HeadNotes(visible[k..])
  {
    k := from;
    while k < |visible| && visible[k].Tail?
      invariant from <= k <= |visible|
      invariant forall m :: from <= m < k ==> visible[m].Tail?
      invariant HeadNotes(visible[from..]) == HeadNotes(visible[k..])
    {
      assert visible[k..][1..] == visible[k + 1..];
      k := k + 1;
    }
  }

  // ---------------------------------------------------------------------------
  // `MoveNextOfNoteHeadModel` as written: the enumerator passed by `in`

  /** A `List<T>.Enumerator` over the visible sequence: the index of the next
      entry to move to, and `Current` (`None`, a null, before the first move). */
  datatype EnumeratorState = EnumeratorState(index: nat, current: Option<Entry>)

  /** `List<T>.Enumerator.MoveNext`: move to the next entry, or past the end. */
  function EnumeratorMoveNext(visible: seq<Entry>, e: EnumeratorState): (EnumeratorState, bool) {
    if e.index < |visible| then (EnumeratorState(e.index + 1, Some(visible[e.index])), true)
    else (EnumeratorState(|visible| + 1, None), false)
  }

  /** What one pass of the helper's `while` does: it loops again, returns
      `true` with a head's note, or returns `false`. */
  datatype PassOutcome = LoopsAgain | FoundHead(note: NoteData) | Exhausted

  /** One pass of the `while` in `MoveNextOfNoteHeadModel`, as written. The
      enumerator arrives as an `in` parameter and is a mutable struct, so
      `MoveNext` runs on a defensive copy and the caller's enumerator `e` is
      left as it was; `Current` is then read from `e`. */
  function MoveNextPassAsWritten(visible: seq<Entry>, e: EnumeratorState): (r: (EnumeratorState, PassOutcome))
    ensures r.0 == e
    ensures r.1.Exhausted? <==> |visible| <= e.index
  {
    var (_, moved) := EnumeratorMoveNext(visible, e);
    if !moved then (e, Exhausted)
    else match e.current
      case Some(Head(ref)) => (e, FoundHead(ref.data))
      case _ => (e, LoopsAgain)
  }

  /** The caller's enumerator and the outcome after at most `n` passes of
      that `while`, stopping at the first pass that returns. */
  function PassesAsWritten(visible: seq<Entry>, e: EnumeratorState, n: nat): (EnumeratorState, PassOutcome)
    decreases n
  {
    if n == 0 then (e, LoopsAgain)
    else
      var (e', outcome) := MoveNextPassAsWritten(visible, e);
      if outcome.LoopsAgain? then PassesAsWritten(visible, e', n - 1) else (e', outcome)
  }

  /** As written, the first `MoveNextOfNoteHeadModel(fg, out f)` of
      `MergeNotes` never returns when the visible sequence is not empty: from
      the fresh enumerator, after any number of passes the enumerator has not
      moved and the loop goes round again. So `CloneForSave` does not return
      on a chart with a note on stage. */
  lemma {:induction false} MergeNotesAsWrittenStuck(visible: seq<Entry>, n: nat)
    requires visible != []
    ensures PassesAsWritten(visible, EnumeratorState(0, None), n) == (EnumeratorState(0, None), LoopsAgain)
    decreases n
  {
    if n > 0 {
      MergeNotesAsWrittenStuck(visible, n - 1);
    }
  }

  /** `CloneNote`: a full clone (sounds included, links dropped) whose
      duration is zero if it is a swipe. */
  function CloneNote(note: NoteData): (c: NoteData)
    ensures c == note.(prevLink := None, nextLink := None, duration := if note.isSwipe then 0.0 else note.duration)
    ensures c.isSwipe ==> c.duration == 0.0 && !IsHold(c)
    ensures !note.isSwipe ==> IsHold(c) == IsHold(note) && EndTime(c) == EndTime(note)
  {
    var clone := Clone(note, true);
    if clone.isSwipe then clone.(duration := 0.0) else clone
  }

  function CloneNotes(notes: seq<NoteData>): (r: seq<NoteData>)
    ensures |r| == |notes| && forall i :: 0 <= i < |notes| ==> r[i] == CloneNote(notes[i])
  {
    if notes == [] then [] else [CloneNote(notes[0])] + CloneNotes(notes[1..])
  }

  /** A clone taken for saving keeps every field except the links, and a saved swipe lasts zero. */
  lemma SavedSwipeHasZeroDuration(note: NoteData)
    requires note.isSwipe
    ensures CloneNote(note).duration == 0.0 && CloneNote(note).time == note.time
    ensures CloneNote(note).prevLink == None && CloneNote(note).nextLink == None
  {
  }

  // ---------------------------------------------------------------------------
  // The chart object

  class ChartModel {
    var name: string
    /** The `Difficulty` enumeration, by its integer value. */
    var difficulty: int32
    var level: string
    var data: ChartData
    var holdCount: nat
    var visibleNotes: seq<Entry>
    var backgroundNotes: seq<NoteData>
    /** The note list the projection was last built from. */
    ghost var builtFrom: seq<NoteData>

    /** The projection is the one `SetData` builds from `builtFrom`. */
    ghost predicate Valid()
      reads this
    {
      Builder(visibleNotes, backgroundNotes, holdCount, []) == Build(builtFrom)
    }

    constructor (data: ChartData)
      ensures this.data == data && builtFrom == data.notes && Valid()
      ensures name == "" && level == "" && difficulty == 0
    {
      name := "";
      difficulty := 0;
      level := "";
      this.data := data;
      builtFrom := data.notes;
      var v, b, h := BuildProjection(data.notes);
      visibleNotes, backgroundNotes, holdCount := v, b, h;
    }

    /** `SetData`: store the data and rebuild the projection from its notes. */
    method SetData(data: ChartData)
      modifies this
      ensures this.data == data && builtFrom == data.notes && Valid()
      ensures name == old(name) && difficulty == old(difficulty) && level == old(level)
    {
      this.data := data;
      builtFrom := data.notes;
      var v, b, h := BuildProjection(data.notes);
      visibleNotes, backgroundNotes, holdCount := v, b, h;
    }

    /** `CloneForSave`: a new chart over `clonedData` (the chart data cloned
        without notes) with this chart's header, while the merged clones of
        the projection are appended to this chart's own note list. Before
        the appends the capacity of that list is set to the projection's
        length; below the list's count that throws, which is the `None`
        result with nothing changed. */
    method CloneForSave(clonedData: ChartData) returns (r: Option<ChartModel>)
      modifies this
      ensures r.None? <==> |old(data.notes)| > |visibleNotes| + |backgroundNotes|
      ensures r.Some? ==> fresh(r.value) && r.value.data == clonedData && r.value.builtFrom == clonedData.notes && r.value.Valid()
      ensures r.Some? ==> r.value.name == name && r.value.difficulty == difficulty && r.value.level == level
      ensures r.Some? ==> data == old(data).(notes := old(data.notes) + CloneNotes(MergeNotes(visibleNotes, backgroundNotes)))
      ensures r.None? ==> data == old(data)
      ensures old(Valid()) && old(data.notes) == builtFrom ==> r.Some?
      ensures name == old(name) && difficulty == old(difficulty) && level == old(level)
      ensures visibleNotes == old(visibleNotes) && backgroundNotes == old(backgroundNotes)
      ensures holdCount == old(holdCount) && builtFrom == old(builtFrom)
    {
      var chart := new ChartModel(clonedData);
      chart.name, chart.difficulty, chart.level := name, difficulty, level;
      SaveCapacity(builtFrom);
      if |data.notes| > |visibleNotes| + |backgroundNotes| {
        return None;
      }
      var merged := MergeProjection(visibleNotes, backgroundNotes);
      var notes := AppendClones(data.notes, merged);
      data := data.(notes := notes);
      r := Some(chart);
    }
  }

  lemma CloneNotesAppend(a: seq<NoteData>, b: seq<NoteData>)
    ensures CloneNotes(a + b) == CloneNotes(a) + CloneNotes(b)
  {
  }

  /** The `foreach` of `CloneForSave`: append the clone of each merged note. */
  method AppendClones(notes: seq<NoteData>, merged: seq<NoteData>) returns (r: seq<NoteData>)
    ensures r == notes + CloneNotes(merged)
  {
    r := notes;
    for k := 0 to |merged|
      invariant r == notes + CloneNotes(merged[..k])
    {
      assert merged[..k + 1] == merged[..k] + [merged[k]];
      CloneNotesAppend(merged[..k], [merged[k]]);
      r := r + [CloneNote(merged[k])];
    }
    assert merged[..|merged|] == merged;
  }

  /** `InitializationHelper.SetData`: nothing happens when the chart already
      holds this data; otherwise the projection is rebuilt from it. */
  method InitializeData(model: ChartModel, data: ChartData)
    modifies model
    ensures old(model.data) == data ==> model.data == old(model.data) && model.builtFrom == old(model.builtFrom)
    ensures old(model.data) == data ==> model.visibleNotes == old(model.visibleNotes) && model.holdCount == old(model.holdCount)
    ensures old(model.data) == data ==> model.backgroundNotes == old(model.backgroundNotes)
    ensures old(model.data) != data ==> model.data == data && model.builtFrom == data.notes && model.Valid()
    ensures model.name == old(model.name) && model.difficulty == old(model.difficulty) && model.level == old(model.level)
  {
    if data == model.data {
      return;
    }
    model.SetData(data);
  }

  /** A projection built from `notes` has one entry per input note plus one
      tail per visible hold. */
  lemma SaveCapacity(notes: seq<NoteData>)
    ensures |Build(notes).visible| + |Build(notes).background| == |notes| + Build(notes).holdCount
  {
    BuildNoteCount(notes);
    BuildHeads(notes);
    BuildBackground(notes);
    PartitionSize(notes, |notes|);
  }

  lemma {:induction false} PartitionSize(notes: seq<NoteData>, n: nat)
    requires n <= |notes|
    ensures |VisibleRefs(notes, n)| + |Invisible(notes, n)| == n
  {
    if n > 0 {
      PartitionSize(notes, n - 1);
    }
  }

  /** The first save of a built chart fits the capacity it sets. The list
      then holds every note twice, so a second save throws unless every
      note is a visible hold. */
  lemma RepeatedSaveOfBuiltChart(notes: seq<NoteData>)
    ensures |notes| <= |Build(notes).visible| + |Build(notes).background|
    ensures var saved := notes + CloneNotes(MergeNotes(Build(notes).visible, Build(notes).background));
      |saved| > |Build(notes).visible| + |Build(notes).background| <==> Build(notes).holdCount < |notes|
  {
    SaveCapacity(notes);
    SavedListOfBuiltChart(notes, CloneNotes(MergeNotes(Build(notes).visible, Build(notes).background)));
  }

  /** After a save, the receiver's note list is its old list followed by the
      clones of every projected note, in merge order; the projection itself is
      not rebuilt, so it still describes the old list. */
  lemma SavedListOfBuiltChart(notes: seq<NoteData>, appended: seq<NoteData>)
    requires appended == CloneNotes(MergeNotes(Build(notes).visible, Build(notes).background))
    ensures |appended| == |notes|
    ensures forall c :: c in appended ==> c.prevLink == None && c.nextLink == None
    ensures forall c :: c in appended && c.isSwipe ==> c.duration == 0.0
  {
    SaveMergeKeepsEveryNote(notes);
    var m := MergeNotes(Build(notes).visible, Build(notes).background);
    assert |multiset(m)| == |multiset(notes)|;
  }
}
