/** `NoteData`: one timed note of a chart, its derived classifications, its
    clone, and the slide links between notes.

    The source's `_prevLinkNote`/`_nextLinkNote` references become indices into
    the sequence of notes that holds them (an arena); `NoteArena` is that
    sequence together with the setters that reach into neighbouring notes. */
module NoteDatas {
  import opened Common
  import opened PianoSounds
  import Args

  /** The note record. `noteType` is the obsolete `Type` field; `sounds` is
      the sound list, where a null list reads as empty. */
  datatype NoteData = NoteData(
    noteType: int32,
    sounds: seq<PianoSoundValueData>,
    position: real,
    size: real,
    time: real,
    shift: real,
    speed: real,
    duration: real,
    vibrate: bool,
    isSwipe: bool,
    warningType: int32,
    eventId: string,
    isSlide: bool,
    prevLink: Option<nat>,
    nextLink: Option<nat>)

  predicate IsHold(note: NoteData) {
    !note.isSwipe && note.duration > 0.0
  }

  function EndTime(note: NoteData): real {
    note.time + note.duration
  }

  predicate IsVisible(note: NoteData) {
    -Args.StageMaxPosition <= note.position <= Args.StageMaxPosition
  }

  /** A hold's interval is not empty: it ends strictly after it starts. */
  lemma HoldEndsAfterStart(note: NoteData)
    requires IsHold(note)
    ensures EndTime(note) > note.time
  {
  }

  /** The visibility of a note is decided by its position alone, in the closed stage bound. */
  lemma VisibleIffOnStage(note: NoteData)
    ensures IsVisible(note) <==> -2.0 <= note.position <= 2.0
    ensures IsVisible(note) <==> Args.ClampNotePosition(note.position) == note.position
  {
  }

  function PositionCoord(note: NoteData): Args.NoteCoord {
    Args.NoteCoord(note.position, note.time)
  }

  /** The `PositionCoord` setter: position and time take the coordinate's values. */
  function WithPositionCoord(note: NoteData, coord: Args.NoteCoord): (r: NoteData)
    ensures PositionCoord(r) == coord
    ensures r.(position := note.position, time := note.time) == note
  {
    note.(position := coord.position, time := coord.time)
  }

  /** Setting the coordinate a note already has changes nothing. */
  lemma WithOwnPositionCoord(note: NoteData)
    ensures WithPositionCoord(note, PositionCoord(note)) == note
  {
  }

  /** Every link of every note indexes a note of the arena. */
  ghost predicate LinksInRange(notes: seq<NoteData>) {
    forall k :: 0 <= k < |notes| ==>
      (notes[k].prevLink.Some? ==> notes[k].prevLink.value < |notes|) &&
      (notes[k].nextLink.Some? ==> notes[k].nextLink.value < |notes|)
  }

  /** A note with a link is marked as a slide. */
  ghost predicate LinksImplySlide(notes: seq<NoteData>) {
    forall k :: 0 <= k < |notes| && (notes[k].prevLink.Some? || notes[k].nextLink.Some?) ==> notes[k].isSlide
  }

  /** Links are two-sided: `a.next` is `b` exactly when `b.prev` is `a`. */
  ghost predicate Reciprocal(notes: seq<NoteData>) {
    forall a, b :: 0 <= a < |notes| && 0 <= b < |notes| ==>
      (notes[a].nextLink == Some(b) <==> notes[b].prevLink == Some(a))
  }

  /** The `PrevLink` setter on one note: a link marks it as a slide; null only clears the link. */
  function AssignPrevLink(note: NoteData, link: Option<nat>): (r: NoteData)
    ensures r.prevLink == link
    ensures link.Some? ==> r.isSlide
    ensures link.None? ==> r.isSlide == note.isSlide
    ensures r.(prevLink := note.prevLink, isSlide := note.isSlide) == note
  {
    note.(isSlide := if link.Some? then true else note.isSlide, prevLink := link)
  }

  /** The `NextLink` setter on one note, the mirror image of `AssignPrevLink`. */
  function AssignNextLink(note: NoteData, link: Option<nat>): (r: NoteData)
    ensures r.nextLink == link
    ensures link.Some? ==> r.isSlide
    ensures link.None? ==> r.isSlide == note.isSlide
    ensures r.(nextLink := note.nextLink, isSlide := note.isSlide) == note
  {
    note.(isSlide := if link.Some? then true else note.isSlide, nextLink := link)
  }

  /** The `IsSlide` setter on note `i` of an arena, step by step as the source
      runs it: no change for the current value; when clearing, the previous
      note's `NextLink` and then (as it reads after that) the next note's
      `PrevLink` are set to null; finally both own links are nulled and the
      flag is stored. */
  function AssignIsSlide(notes: seq<NoteData>, i: nat, value: bool): (r: seq<NoteData>)
    requires i < |notes| && LinksInRange(notes)
    ensures |r| == |notes|
  {
    if value == notes[i].isSlide then notes
    else
      var afterPrev :=
        if !value && notes[i].prevLink.Some?
        then notes[notes[i].prevLink.value := AssignNextLink(notes[notes[i].prevLink.value], None)]
        else notes;
      var afterNext :=
        if !value && afterPrev[i].nextLink.Some?
        then afterPrev[afterPrev[i].nextLink.value := AssignPrevLink(afterPrev[afterPrev[i].nextLink.value], None)]
        else afterPrev;
      afterNext[i := afterNext[i].(prevLink := None, nextLink := None, isSlide := value)]
  }

  /** Assigning `IsSlide` its current value changes nothing. */
  lemma AssignSameIsSlide(notes: seq<NoteData>, i: nat)
    requires i < |notes| && LinksInRange(notes)
    ensures AssignIsSlide(notes, i, notes[i].isSlide) == notes
  {
  }

  /** Setting `IsSlide` on a note that was not a slide leaves it a slide without links and touches no other note. */
  lemma SetSlideOnNonSlide(notes: seq<NoteData>, i: nat)
    requires i < |notes| && LinksInRange(notes)
    requires !notes[i].isSlide
    ensures AssignIsSlide(notes, i, true) == notes[i := notes[i].(isSlide := true, prevLink := None, nextLink := None)]
  {
  }

  /** Clearing `IsSlide`: the note loses both links and its flag; the previous
      note loses its `NextLink` and the next note its `PrevLink` (unless a
      self-referencing previous link already cleared this note's next link);
      every other field of every note, the neighbours' flags included, is kept. */
  lemma ClearSlide(notes: seq<NoteData>, i: nat)
    requires i < |notes| && LinksInRange(notes)
    requires notes[i].isSlide
    ensures var r := AssignIsSlide(notes, i, false);
      && r[i] == notes[i].(isSlide := false, prevLink := None, nextLink := None)
      && forall k :: 0 <= k < |notes| && k != i ==>
           r[k] == notes[k].(
             nextLink := if notes[i].prevLink == Some(k) then None else notes[k].nextLink,
             prevLink := if notes[i].nextLink == Some(k) && notes[i].prevLink != Some(i) then None else notes[k].prevLink)
  {
  }

  /** Every `IsSlide` assignment keeps all links within the arena. */
  lemma AssignIsSlideKeepsLinksInRange(notes: seq<NoteData>, i: nat, value: bool)
    requires i < |notes| && LinksInRange(notes)
    ensures LinksInRange(AssignIsSlide(notes, i, value))
  {
    if value != notes[i].isSlide && !value {
      ClearSlide(notes, i);
    }
  }

  /** Every `IsSlide` assignment keeps "a linked note is a slide". */
  lemma AssignIsSlideKeepsLinksImplySlide(notes: seq<NoteData>, i: nat, value: bool)
    requires i < |notes| && LinksInRange(notes) && LinksImplySlide(notes)
    ensures LinksImplySlide(AssignIsSlide(notes, i, value))
  {
    if value != notes[i].isSlide && !value {
      ClearSlide(notes, i);
    }
  }

  /** Clearing `IsSlide` on one note of a two-sided link structure leaves it two-sided. */
  lemma ClearSlideKeepsReciprocal(notes: seq<NoteData>, i: nat)
    requires i < |notes| && LinksInRange(notes) && Reciprocal(notes)
    ensures Reciprocal(AssignIsSlide(notes, i, false))
  {
    if notes[i].isSlide {
      ClearSlide(notes, i);
      var r := AssignIsSlide(notes, i, false);
      forall a, b | 0 <= a < |notes| && 0 <= b < |notes|
        ensures r[a].nextLink == Some(b) <==> r[b].prevLink == Some(a)
      {
        assert notes[a].nextLink == Some(b) <==> notes[b].prevLink == Some(a);
        if notes[i].prevLink.Some? {
          var p := notes[i].prevLink.value;
          assert notes[p].nextLink == Some(i);
        }
        if notes[i].nextLink.Some? {
          var n := notes[i].nextLink.value;
          assert notes[n].prevLink == Some(i);
        }
      }
    }
  }

  /** The `PrevLink`/`NextLink` setters on an arena: only note `i` changes. */
  function SetPrevLinkAt(notes: seq<NoteData>, i: nat, link: Option<nat>): (r: seq<NoteData>)
    requires i < |notes|
    ensures |r| == |notes| && r[i] == AssignPrevLink(notes[i], link)
    ensures forall k :: 0 <= k < |notes| && k != i ==> r[k] == notes[k]
  {
    notes[i := AssignPrevLink(notes[i], link)]
  }

  function SetNextLinkAt(notes: seq<NoteData>, i: nat, link: Option<nat>): (r: seq<NoteData>)
    requires i < |notes|
    ensures |r| == |notes| && r[i] == AssignNextLink(notes[i], link)
    ensures forall k :: 0 <= k < |notes| && k != i ==> r[k] == notes[k]
  {
    notes[i := AssignNextLink(notes[i], link)]
  }

  /** Linking `a` to a following `b` with the two one-sided setters, when neither
      end is linked on that side yet, keeps the links two-sided and every linked
      note a slide. */
  lemma LinkPairKeepsInvariants(notes: seq<NoteData>, a: nat, b: nat)
    requires a < |notes| && b < |notes|
    requires Reciprocal(notes) && LinksImplySlide(notes)
    requires notes[a].nextLink.None? && notes[b].prevLink.None?
    ensures var r := SetPrevLinkAt(SetNextLinkAt(notes, a, Some(b)), b, Some(a));
      Reciprocal(r) && LinksImplySlide(r) && r[a].nextLink == Some(b) && r[b].prevLink == Some(a)
  {
    var r := SetPrevLinkAt(SetNextLinkAt(notes, a, Some(b)), b, Some(a));
    forall x, y | 0 <= x < |notes| && 0 <= y < |notes|
      ensures r[x].nextLink == Some(y) <==> r[y].prevLink == Some(x)
    {
      assert notes[x].nextLink == Some(y) <==> notes[y].prevLink == Some(x);
    }
  }

  /** `Clone`: a new note built from every scalar field and the sound list
      (element-wise copies, or none: an empty list), whose `IsSlide`
      initializer goes through the setter of a fresh, unlinked note. */
  function Clone(note: NoteData, cloneSounds: bool): (c: NoteData)
    ensures c == note.(sounds := if cloneSounds then note.sounds else [], prevLink := None, nextLink := None)
  {
    var blank := note.(sounds := if cloneSounds then note.sounds else [], isSlide := false, prevLink := None, nextLink := None);
    AssignIsSlide([blank], 0, note.isSlide)[0]
  }

  /** A clone of a slide reports `IsSlide` without having any link. */
  lemma CloneOfSlideHasNoLinks(note: NoteData)
    requires note.isSlide
    ensures Clone(note, true).isSlide && Clone(note, true).prevLink.None? && Clone(note, true).nextLink.None?
  {
  }

  /** The note arena: the notes whose links index each other, with the
      `IsSlide`, `PrevLink`, `NextLink` and `PositionCoord` setters. */
  class NoteArena {
    var notes: seq<NoteData>

    ghost predicate Valid()
      reads this
    {
      LinksInRange(notes)
    }

    constructor (notes: seq<NoteData>)
      requires LinksInRange(notes)
      ensures this.notes == notes && Valid()
    {
      this.notes := notes;
    }

    method SetPrevLink(i: nat, link: Option<nat>)
      requires Valid() && i < |notes| && (link.Some? ==> link.value < |notes|)
      modifies this
      ensures Valid()
      ensures notes == SetPrevLinkAt(old(notes), i, link)
    {
      notes := notes[i := AssignPrevLink(notes[i], link)];
    }

    method SetNextLink(i: nat, link: Option<nat>)
      requires Valid() && i < |notes| && (link.Some? ==> link.value < |notes|)
      modifies this
      ensures Valid()
      ensures notes == SetNextLinkAt(old(notes), i, link)
    {
      notes := notes[i := AssignNextLink(notes[i], link)];
    }

    method SetIsSlide(i: nat, value: bool)
      requires Valid() && i < |notes|
      modifies this
      ensures Valid()
      ensures notes == AssignIsSlide(old(notes), i, value)
    {
      AssignIsSlideKeepsLinksInRange(notes, i, value);
      if value == notes[i].isSlide {
        return;
      }
      if !value {
        if notes[i].prevLink.Some? {
          SetNextLink(notes[i].prevLink.value, None);
        }
        if notes[i].nextLink.Some? {
          SetPrevLink(notes[i].nextLink.value, None);
        }
      }
      notes := notes[i := notes[i].(prevLink := None, nextLink := None, isSlide := value)];
    }

    method SetPositionCoord(i: nat, coord: Args.NoteCoord)
      requires Valid() && i < |notes|
      modifies this
      ensures Valid()
      ensures notes == old(notes)[i := WithPositionCoord(old(notes)[i], coord)]
      ensures PositionCoord(notes[i]) == coord
    {
      notes := notes[i := WithPositionCoord(notes[i], coord)];
    }
  }
}
