/** `NoteModel`: the editor's wrapper of a note on stage, holding its
    selection state and collision counter. */
module NoteModels {
  import NoteDatas
  import Args

  class NoteModel {
    /** The wrapped note, fixed at construction. */
    const data: NoteDatas.NoteData
    var isSelected: bool
    /** While the editor drags a selection range: whether the note is inside it. */
    var isInSelection: bool
    var collisionCount: int

    constructor (data: NoteDatas.NoteData)
      ensures this.data == data
      ensures !isSelected && !isInSelection && collisionCount == 0
      ensures !IsSelected() && !IsCollided()
    {
      this.data := data;
      isSelected := false;
      isInSelection := false;
      collisionCount := 0;
    }

    /** The reported selection: the stored flag, inverted while the note is in the selection range. */
    function IsSelected(): (r: bool)
      reads this
      ensures r <==> (isSelected != isInSelection)
      ensures !isInSelection ==> r == isSelected
      ensures isInSelection ==> r == !isSelected
    {
      isSelected != isInSelection
    }

    /** The `IsSelected` setter stores the flag and leaves the selection range. */
    method SetIsSelected(value: bool)
      modifies this
      ensures isSelected == value && !isInSelection
      ensures IsSelected() == value
      ensures collisionCount == old(collisionCount)
    {
      isSelected := value;
      isInSelection := false;
    }

    /** `SetIsInSelection(true)` inverts the reported selection; `false` restores the stored flag. */
    method SetIsInSelection(value: bool)
      modifies this
      ensures isInSelection == value
      ensures isSelected == old(isSelected) && collisionCount == old(collisionCount)
      ensures value ==> IsSelected() == !isSelected
      ensures !value ==> IsSelected() == isSelected
    {
      isInSelection := value;
    }

    predicate IsCollided()
      reads this
    {
      collisionCount > 0
    }

    /** `IStageNoteModel.Time`: the time of the wrapped note. */
    function Time(): real {
      data.time
    }

    /** `IStageNoteModel.Position`: the position of the wrapped note. */
    function Position(): real {
      data.position
    }
  }

  /** As an `IStageNoteModel`, a note model stands at its note's coordinate. */
  lemma StageCoordOfModel(model: NoteModel)
    ensures Args.NoteCoord(model.Position(), model.Time()) == NoteDatas.PositionCoord(model.data)
  {
  }

  /** Selecting, then entering and leaving the selection range: the note ends up selected as set. */
  method SelectionScenario(model: NoteModel, value: bool)
    modifies model
    ensures model.IsSelected() == value
  {
    model.SetIsSelected(value);
    model.SetIsInSelection(true);
    assert model.IsSelected() == !value;
    model.SetIsInSelection(false);
  }
}
