# Deenote chart data engine, in Dafny

This project models the data engine of Deenote, an editor for rhythm-game charts. It covers five things:

- The note record (`NoteData`) and its slide links.
- The projection `ChartModel.SetData` builds from a chart's time-ordered note list. The visible sequence holds note heads and hold-tail markers. The background sequence holds the notes off stage.
- The queries of `NoteModelListProxy` over that projection.
- The save-time merge of `ChartModel.CloneForSave`.
- The binary `.dnt` project file: `ProjectManager.Save`, `Load` and their `WriteX`/`ReadX` helpers.

It also covers the smaller pieces these depend on:

- `MainSystem.Args`: clamps, conversions, collision tests and constants.
- `NoteModel`: the selection state.
- `PianoSoundData`.
- The `Utils` helpers.

Modules follow the source:

| module | models |
|---|---|
| `Common` | `Option` (a nullable reference, or an exception via `:-`), `byte`, `int32` |
| `Args` | `MainSystem.Args` |
| `PianoSounds` | `PianoSoundData` (a class) and `PianoSoundValueData` (a datatype) |
| `NoteDatas` | `NoteData` as a datatype. The links are indices into a sequence of notes, the arena. Class `NoteArena` holds that sequence and has the setters that reach into neighbouring notes. |
| `NoteModels` | `NoteModel` (a class) |
| `ChartDatas` | the `ChartData` and `SpeedLine` records the chart is built from and saved to |
| `Projection` | the `SetData` pass as functions (`Step`, `Run`, `Build`), with its invariant and the properties of the result |
| `ChartModels` | `SetData` with its loops (`BuildProjection`, proved equal to `Build`), the merge, `CloneForSave`, the `ChartModel` class |
| `NoteModelListProxy` | `Count`, `NoteCount`, `Search`, both `SearchTailOf` overloads, `GetCollidedNotesTo` |
| `BinaryStreams` | the primitive encodings and decoders, and the `BinaryWriter`/`BinaryReader` classes over a unit stream |
| `ProjectIO` | each record's encoder and decoder, and the round trips |
| `ProjectManager` | `Save`/`Load` and every `WriteX`/`ReadX`, written with the writer and reader and proved equal to `ProjectIO` |
| `Utils` | `Utils` |

**Float values.** Floating point values are reals.

**The file format.** A file is a sequence of units: plain bytes, four-unit chunks that carry a single-precision value, and length-prefixed strings.
- `ReadInt32` on a float chunk yields the chunk's bit pattern. The model takes this as a function parameter `bits`, because the IEEE layout is not modelled.
- `ReadChartData` reads the chart `Speed` with `ReadInt32` (`ProjectManager.IO.cs:171`), but `WriteChartData` writes it as a float (line 154). So a loaded chart's speed is `bits(speed)` as a number. The round trip `ProjectIO.LoadOfSave` states this exactly. `ProjectIO.SpeedNotPreserved` shows that any chart whose speed is not its own bit pattern (1.0, for instance) does not load back as saved.

**Where `CloneForSave` writes.** `CloneForSave` appends the merged clones to the receiver's own `Data.Notes` (`ChartModel.cs:124`), not to the new chart's data. The new chart's projection is built in its constructor from the cloned data before that. Before appending, line 125 sets that list's `Capacity` to the projection's length. The list is never rebuilt from the projection, so after one save it holds the old notes and their clones. A second save then sets a capacity below the count, which throws, unless every note is a visible hold. `ChartModels.ChartModel.CloneForSave` states the append and the throw: the throw is its `None` result, and nothing changes then. The list it appends is the corrected merge (see below); as written, the call does not return at all when a note is on stage, so a second save can throw as written only for a chart with no note on stage. `ChartModels.RepeatedSaveOfBuiltChart` shows that the first save of a built chart fits and that the second one throws exactly when the chart has fewer holds than notes.

**The merge's visible enumerator.** `MoveNextOfNoteHeadModel` takes the visible list's enumerator, a mutable struct, as an `in` parameter. The calls on it therefore run on defensive copies, and the caller's enumerator never moves. As written, `MergeNotes` on a non-empty visible list loops forever (`ChartModels.MergeNotesAsWrittenStuck`). The model's merge is the evident intent, with the enumerator advanced in place; see "## Findings".

**Clones keep the slide flag.** `Clone` assigns `IsSlide` through the setter of a fresh note. A clone of a slide is therefore a slide without links (`NoteDatas.CloneOfSlideHasNoLinks`).

**The `ChartData` record.** `ChartData`'s source file is not part of this model. Its fields are taken from what `WriteChartData`/`ReadChartData` write and read.

## Model

| member | source | states |
|---|---|---|
| Args.Clamp | Assets/Scripts/MainSystem.cs:121-126 | `Mathf.Clamp`: for an ordered pair of bounds the result lies between them; a value inside is returned unchanged, one below gives the lower bound, one above the upper bound |
| Args.ClampNoteTime | Assets/Scripts/MainSystem.cs:121 | the time is clamped into [0, music length] and unchanged when already inside |
| Args.ClampNotePosition | Assets/Scripts/MainSystem.cs:119-124 | the result lies in [-2, 2]; positions inside are unchanged, positions outside go to the nearer bound |
| Args.ClampNoteSize | Assets/Scripts/MainSystem.cs:126 | the result lies in [0.1, 5] and sizes inside are unchanged |
| Args.ClampNotePositionIdempotent | Assets/Scripts/MainSystem.cs:123-124 | clamping a position twice equals clamping it once |
| Args.PositionXRoundTrip | Assets/Scripts/MainSystem.cs:132-139 | over the reals `XToPosition` and `PositionToX` are inverse to each other, both ways (`PositionToX` multiplies by 1.63, `XToPosition` divides) |
| Args.OffsetTimeZRoundTrip | Assets/Scripts/MainSystem.cs:145-149 | for a non-zero multiplier and note speed, `ZToOffsetTime(OffsetTimeToZ(t)) == t` (`OffsetTimeToZ` and `ZToOffsetTime` with the stage's multiplier and note speed as parameters) |
| Args.WorldPositionRoundTrip | Assets/Scripts/MainSystem.cs:137-152 | `NoteCoordToWorldPosition` places a coordinate at the stage x of its position (`PositionToX`) and the z of its offset from the current time (`OffsetTimeToZ`); that x converts back to the position, and that z, for a non-zero multiplier and speed, back to the offset |
| Args.MinBeatLineIntervalIsOneBeatAtMaxBpm | Assets/Scripts/MainSystem.cs:156-157 | `MinBeatLineInterval` is 60 / `MaxBpm`: one beat at the highest tempo |
| Args.Abs | Assets/Scripts/MainSystem.cs:159-169 | `Mathf.Abs`: the result is non-negative and is the value or its negation |
| Args.CollisionSymmetric | Assets/Scripts/MainSystem.cs:159-169 | the time test, the position test and their conjunction are each symmetric in their two notes |
| Args.CollidedIffClose | Assets/Scripts/MainSystem.cs:159-169 | two notes collide iff their times differ by at most 0.001 and their positions by at most 0.01; `IsTimeCollided` and `IsPositionCollided` are the two tests, `IsCollided` their conjunction |
| PianoSounds.PianoSoundData.constructor | Assets/Scripts/Project/Models/Datas/PianoSoundData.cs:26-32 | the four arguments are stored exactly |
| PianoSounds.PianoSoundData.FromValues | Assets/Scripts/Project/Models/Datas/PianoSoundData.cs:34-36 | construction from a value record gives that record's four fields |
| PianoSounds.PianoSoundData.GetValues | Assets/Scripts/Project/Models/Datas/PianoSoundData.cs:49-52 | the value record carries the current four fields |
| PianoSounds.PianoSoundData.Clone | Assets/Scripts/Project/Models/Datas/PianoSoundData.cs:38-39 | a new object, distinct from the receiver, with equal fields |
| PianoSounds.PianoSoundData.CopyTo | Assets/Scripts/Project/Models/Datas/PianoSoundData.cs:41-47 | the other object gets the receiver's four fields; the receiver's fields are unchanged |
| PianoSounds.PianoSoundData.SetValues | Assets/Scripts/Project/Models/Datas/PianoSoundData.cs:54-60 | afterwards `GetValues` returns the record that was set |
| PianoSounds.SetValuesOfOwnValues | Assets/Scripts/Project/Models/Datas/PianoSoundData.cs:49-60 | `SetValues(GetValues())` leaves every field as it was |
| PianoSounds.ValuesRoundTrip | Assets/Scripts/Project/Models/Datas/PianoSoundData.cs:34-52 | a value record put into an object and read back is unchanged |
| NoteModels.NoteModel.constructor | Assets/Scripts/Project/Models/NoteModel.cs:33-40 | the model wraps the given note; it starts unselected, outside any selection range and not collided; `IsCollided` is a positive `CollisionCount`, false at the start |
| NoteModels.NoteModel.IsSelected | Assets/Scripts/Project/Models/NoteModel.cs:24-26 | the reported selection is the stored flag XOR the in-selection flag |
| NoteModels.NoteModel.SetIsSelected | Assets/Scripts/Project/Models/NoteModel.cs:27-30 | stores the flag and clears the in-selection flag, so reading it back yields the value set; the collision count is kept |
| NoteModels.NoteModel.SetIsInSelection | Assets/Scripts/Project/Models/NoteModel.cs:42-45 | `true` inverts the reported selection, `false` restores the stored flag; nothing else changes |
| NoteModels.StageCoordOfModel | Assets/Scripts/Project/Models/NoteModel.cs:49-51 | the model's `IStageNoteModel` `Time` and `Position` are its note's coordinate, `PositionCoord` of the note |
| NoteModels.SelectionScenario | Assets/Scripts/Project/Models/NoteModel.cs:24-45 | select, enter and leave the selection range: the note reports the selection that was set |
| NoteDatas.HoldEndsAfterStart | Assets/Scripts/Project/Models/Datas/NoteData.cs:154-156 | a hold (not a swipe, positive duration) ends strictly after it starts (`IsHold` and `EndTime`, the getters of lines 154-156) |
| NoteDatas.VisibleIffOnStage | Assets/Scripts/Project/Models/Datas/NoteData.cs:158 | a note is visible iff its position is in [-2, 2], that is iff clamping its position does not change it (`IsVisible`, the getter of line 158) |
| NoteDatas.WithPositionCoord | Assets/Scripts/Project/Models/Datas/NoteData.cs:160-164 | after the setter the getter returns the coordinate that was set, and only position and time changed (`PositionCoord` is the getter) |
| NoteDatas.WithOwnPositionCoord | Assets/Scripts/Project/Models/Datas/NoteData.cs:160-164 | setting the coordinate a note already has changes nothing |
| NoteDatas.AssignPrevLink | Assets/Scripts/Project/Models/Datas/NoteData.cs:130-139 | `PrevLink` takes the new value; a link forces `IsSlide`, null leaves it; no other field changes |
| NoteDatas.AssignNextLink | Assets/Scripts/Project/Models/Datas/NoteData.cs:141-150 | the same for `NextLink` |
| NoteDatas.AssignSameIsSlide | Assets/Scripts/Project/Models/Datas/NoteData.cs:116-117 | assigning `IsSlide` its current value changes no note |
| NoteDatas.SetSlideOnNonSlide | Assets/Scripts/Project/Models/Datas/NoteData.cs:125-126 | setting `IsSlide` on a non-slide gives a slide with both links null; no other note changes |
| NoteDatas.ClearSlide | Assets/Scripts/Project/Models/Datas/NoteData.cs:118-127 | clearing `IsSlide`: the note loses both links and its flag; the previous note loses its `NextLink` and the next note its `PrevLink`, except when a self-referencing previous link already cleared this note's next link; every other field of every note is kept, the neighbours' flags included |
| NoteDatas.AssignIsSlideKeepsLinksInRange | Assets/Scripts/Project/Models/Datas/NoteData.cs:111-128 | every `IsSlide` assignment keeps all links pointing into the arena (`AssignIsSlide` is the setter over the arena) |
| NoteDatas.AssignIsSlideKeepsLinksImplySlide | Assets/Scripts/Project/Models/Datas/NoteData.cs:111-150 | every `IsSlide` assignment keeps "a note with a link is a slide" |
| NoteDatas.ClearSlideKeepsReciprocal | Assets/Scripts/Project/Models/Datas/NoteData.cs:118-125 | over two-sided links, clearing `IsSlide` on one note leaves all links two-sided |
| NoteDatas.SetPrevLinkAt | Assets/Scripts/Project/Models/Datas/NoteData.cs:130-139 | the `PrevLink` setter changes note `i` as `AssignPrevLink` does and no other note |
| NoteDatas.SetNextLinkAt | Assets/Scripts/Project/Models/Datas/NoteData.cs:141-150 | the `NextLink` setter changes note `i` as `AssignNextLink` does and no other note |
| NoteDatas.LinkPairKeepsInvariants | Assets/Scripts/Project/Models/Datas/NoteData.cs:130-150 | linking two free ends with the two one-sided setters keeps links two-sided and linked notes slides |
| NoteDatas.Clone | Assets/Scripts/Project/Models/Datas/NoteData.cs:166-192 | the clone equals the note in every field and in `IsSlide`, has no links, and has the sound list or (without `cloneSounds`) an empty one |
| NoteDatas.CloneOfSlideHasNoLinks | Assets/Scripts/Project/Models/Datas/NoteData.cs:189 | a clone of a slide reports `IsSlide` and has neither link |
| NoteDatas.NoteArena.SetPrevLink | Assets/Scripts/Project/Models/Datas/NoteData.cs:130-139 | the arena becomes `SetPrevLinkAt` of the old arena; a link to a note of the arena keeps every link in range |
| NoteDatas.NoteArena.SetNextLink | Assets/Scripts/Project/Models/Datas/NoteData.cs:141-150 | the arena becomes `SetNextLinkAt` of the old arena; a link to a note of the arena keeps every link in range |
| NoteDatas.NoteArena.SetIsSlide | Assets/Scripts/Project/Models/Datas/NoteData.cs:111-128 | the setter, calling the neighbours' link setters: the arena becomes `AssignIsSlide` of the old one and links stay in range |
| NoteDatas.NoteArena.SetPositionCoord | Assets/Scripts/Project/Models/Datas/NoteData.cs:160-164 | only note `i` changes, to `WithPositionCoord` of it, and its coordinate reads back as set; links stay in range |
| Projection.HeadsTailsCount | Assets/Scripts/Project/Models/ChartModel.cs:213-218 | every entry of a visible sequence is a head or a tail, so `Count` is heads plus tails |
| Projection.VisibleRefsAreVisibleInputs | Assets/Scripts/Project/Models/ChartModel.cs:63-75 | the heads the input calls for are exactly the visible input notes, in input order |
| Projection.FlushCount | Assets/Scripts/Project/Models/ChartModel.cs:65-69 | the flush loop takes the leading pending tails that end strictly before the head's time and stops at the first that does not |
| Projection.FlushSplitsAtTime | Assets/Scripts/Project/Models/ChartModel.cs:65-69 | on a sorted buffer, a pending tail is flushed iff it ends strictly before the head's time |
| Projection.InsertionPoint | Assets/Scripts/Project/Models/ChartModel.cs:93-99 | `InsertInOrder`'s index: after every entry ending at or before the new end time, before the first ending later |
| Projection.InsertedSorted | Assets/Scripts/Project/Models/ChartModel.cs:91-101 | insertion keeps the buffer sorted by end time and adds exactly the new hold |
| Projection.StepInv | Assets/Scripts/Project/Models/ChartModel.cs:63-79 | one input note keeps the pass invariant. The heads so far are the visible inputs, the background is the invisible inputs, emitted plus pending tails are the visible holds, `_holdCount` counts the emitted tails, the buffer is sorted, and tails follow their heads. |
| Projection.RunInv | Assets/Scripts/Project/Models/ChartModel.cs:63-79 | the invariant holds after every prefix of the input |
| Projection.BuildComplete | Assets/Scripts/Project/Models/ChartModel.cs:48-86 | after the final flush the projection satisfies the invariant with an empty buffer: every hold head is followed by its tail |
| Projection.BuildHeads | Assets/Scripts/Project/Models/ChartModel.cs:63-75 | the heads are the visible input notes, each exactly once, in input order |
| Projection.BuildBackground | Assets/Scripts/Project/Models/ChartModel.cs:76-78 | the background is the invisible input notes in input order |
| Projection.BuildTailsOnce | Assets/Scripts/Project/Models/ChartModel.cs:66-86 | each visible hold of the input has exactly one tail; invisible holds and non-holds have none |
| Projection.BuildHoldCount | Assets/Scripts/Project/Models/ChartModel.cs:66-86 | `_holdCount` equals the number of tails emitted, which equals the number of visible holds |
| Projection.BuildNoteCount | Assets/Scripts/Project/Models/ChartModel.cs:213-218 | `Count - _holdCount` is the number of heads |
| Projection.BuildTailsAfterHeads | Assets/Scripts/Project/Models/ChartModel.cs:63-86 | every tail comes after its head, and every hold head is followed by its tail |
| Projection.StepOrder | Assets/Scripts/Project/Models/ChartModel.cs:63-79 | one step keeps the visible sequence time-ordered and no pending tail ending before its last entry |
| Projection.BuildOrdered | Assets/Scripts/Project/Models/ChartModel.cs:88-89 | over a time-ordered input, both output sequences are time-ordered (a tail standing at its hold's end time) |
| Projection.StepFlush | Assets/Scripts/Project/Models/ChartModel.cs:65-71 | before a visible head, exactly the pending tails ending strictly before it are emitted; a tail ending at the head's very time is emitted after the head |
| Projection.HoldTailBeforeLaterHead | Assets/Scripts/Project/Models/ChartModel.cs:63-86 | a hold, a head inside it and a head after it project to head, head, tail, head, with hold count 1 and note count 3 |
| Projection.HoldThenInside | Assets/Scripts/Project/Models/ChartModel.cs:63-75 | after a visible hold and a visible non-hold starting before the hold ends, both heads are emitted and the hold's tail is still pending |
| Projection.OffStageNoteInBackground | Assets/Scripts/Project/Models/ChartModel.cs:76-78 | a note off stage goes to the background only |
| ChartModels.InsertInOrder | Assets/Scripts/Project/Models/ChartModel.cs:91-101 | the scanning insertion yields the buffer `Projection.InsertedSorted` describes |
| ChartModels.FlushBefore | Assets/Scripts/Project/Models/ChartModel.cs:65-69 | the `while` loop emits, counts and drops exactly the first `FlushCount` pending tails |
| ChartModels.FlushAll | Assets/Scripts/Project/Models/ChartModel.cs:81-86 | the final `foreach` emits every pending tail in buffer order and counts each |
| ChartModels.ProjectNote | Assets/Scripts/Project/Models/ChartModel.cs:63-79 | one iteration of the `foreach` computes `Step`: an invisible note goes to the background; a visible one flushes the tails ending before it, then its head is emitted and, for a hold, its tail buffered |
| ChartModels.BuildProjection | Assets/Scripts/Project/Models/ChartModel.cs:48-112 | the loops of `SetData` compute `Build(notes)`, whose properties are the `Projection.Build*` lemmas |
| ChartModels.MergePermutation | Assets/Scripts/Project/Models/ChartModel.cs:158-197 | the merge emits every note of both inputs exactly once (`Merge`, the intended merge of `MergeNotes` over `HeadNotes`, the heads of the visible sequence) |
| ChartModels.MergeOrdered | Assets/Scripts/Project/Models/ChartModel.cs:167-197 | merging two time-ordered lists gives a time-ordered list |
| ChartModels.MergeStableAtTime | Assets/Scripts/Project/Models/ChartModel.cs:170-184 | among notes of equal time every visible note precedes every background note, each side in its own order |
| ChartModels.HeadNotesOrdered | Assets/Scripts/Project/Models/ChartModel.cs:144-156 | the heads of an ordered visible sequence, tails skipped, are time-ordered (`HeadNotes`) |
| ChartModels.SaveMergeKeepsEveryNote | Assets/Scripts/Project/Models/ChartModel.cs:139-198 | the merge of a built projection holds every input note exactly once |
| ChartModels.PartitionOfInput | Assets/Scripts/Project/Models/ChartModel.cs:63-79 | the visible and the background notes together are the input |
| ChartModels.SaveMergeOrdered | Assets/Scripts/Project/Models/ChartModel.cs:122-126 | over a time-ordered input the save merge of its projection is time-ordered |
| ChartModels.MergeWhileBoth | Assets/Scripts/Project/Models/ChartModel.cs:160-185 | the compare-and-advance loop with `f.Time <= b.Time` has emitted a prefix of the merge when one side runs out |
| ChartModels.MergeProjection | Assets/Scripts/Project/Models/ChartModel.cs:139-198 | the two-enumerator state machine, with the visible enumerator advanced in place as intended, yields `MergeNotes`: the heads of the visible sequence merged with the background |
| ChartModels.RemainingHeads | Assets/Scripts/Project/Models/ChartModel.cs:187-191 | the `do`/`while` over the visible enumerator yields the remaining heads |
| ChartModels.NextHead | Assets/Scripts/Project/Models/ChartModel.cs:144-156 | `MoveNextOfNoteHeadModel` as intended, with the enumerator advanced in place: it stops at the next head or the end, skipping only tails |
| ChartModels.MoveNextPassAsWritten | Assets/Scripts/Project/Models/ChartModel.cs:144-156 | one pass of the helper's `while` as written leaves the caller's enumerator as it was, and returns `false` iff that enumerator is at or past the end |
| ChartModels.MergeNotesAsWrittenStuck | Assets/Scripts/Project/Models/ChartModel.cs:141-160 | as written, on a non-empty visible list the first call of the helper makes no progress in any number of passes: `MergeNotes` does not terminate (`PassesAsWritten` iterates `MoveNextPassAsWritten`; `EnumeratorMoveNext` is `List<T>.Enumerator.MoveNext`) |
| ChartModels.CloneNote | Assets/Scripts/Project/Models/ChartModel.cs:131-137 | a full clone without links whose duration is zero if it is a swipe; a non-swipe keeps its hold status and end time |
| ChartModels.CloneNotes | Assets/Scripts/Project/Models/ChartModel.cs:126-128 | element `i` of the result is `CloneNote` of element `i` |
| ChartModels.SavedSwipeHasZeroDuration | Assets/Scripts/Project/Models/ChartModel.cs:131-137 | a saved swipe lasts zero and keeps its time; it has no links |
| ChartModels.ChartModel.constructor | Assets/Scripts/Project/Models/ChartModel.cs:42-45 | the chart stores the data and holds the projection of its notes |
| ChartModels.ChartModel.SetData | Assets/Scripts/Project/Models/ChartModel.cs:48-60 | stores the data and rebuilds the projection from its notes; the header is kept |
| ChartModels.ChartModel.CloneForSave | Assets/Scripts/Project/Models/ChartModel.cs:114-129 | throws (`None`, nothing changed) iff this chart's note list holds more notes than the projection has entries, which never happens while that list is the one the projection was built from. Otherwise: a new chart over the cloned data with this chart's name, difficulty and level; this chart's own note list gets the merged clones appended; its header and projection are unchanged. |
| ChartModels.SaveCapacity | Assets/Scripts/Project/Models/ChartModel.cs:63-79 | a built projection has one entry per input note plus one tail per visible hold |
| ChartModels.RepeatedSaveOfBuiltChart | Assets/Scripts/Project/Models/ChartModel.cs:122-128 | the first save of a built chart fits the capacity it sets; the second save throws iff the chart has fewer visible holds than notes |
| ChartModels.AppendClones | Assets/Scripts/Project/Models/ChartModel.cs:124-128 | the `foreach` appends `CloneNote` of each merged note, in order |
| ChartModels.InitializeData | Assets/Scripts/Project/Models/ChartModel.cs:325-330 | the same data changes nothing, projection included; other data is stored and the projection rebuilt from it; the name, difficulty and level are kept either way |
| ChartModels.SavedListOfBuiltChart | Assets/Scripts/Project/Models/ChartModel.cs:124-137 | a save appends as many clones as the chart had notes, none with links, every swipe with zero duration |
| NoteModelListProxy.Count | Assets/Scripts/Project/Models/ChartModel.cs:209-213 | `Count` is the number of heads plus the number of tails |
| NoteModelListProxy.NoteCountOfBuilt | Assets/Scripts/Project/Models/ChartModel.cs:215-218 | on a built projection `NoteCount` is the number of visible input notes (`NoteCount` is `Count` minus the hold count) |
| NoteModelListProxy.BinarySearch | Assets/Scripts/Project/Models/ChartModel.cs:223-225 | a non-negative result indexes an entry at the searched time. On an ordered sequence a negative result means no entry has that time, and its complement splits the sequence at that time. |
| NoteModelListProxy.Search | Assets/Scripts/Project/Models/ChartModel.cs:221-250 | a non-negative result indexes that very head. On an ordered sequence the result is non-negative iff the head is present, and a negative result's complement is a place for it. |
| NoteModelListProxy.SearchMissed | Assets/Scripts/Project/Models/ChartModel.cs:231-249 | when both tie scans stop without meeting the head, an ordered sequence does not contain it |
| NoteModelListProxy.SearchTailAt | Assets/Scripts/Project/Models/ChartModel.cs:252-265 | -1 for anything but a hold head; otherwise the first later index of its tail, and -1 iff no later tail exists |
| NoteModelListProxy.BuiltHoldTailFound | Assets/Scripts/Project/Models/ChartModel.cs:257-263 | on a built projection every hold head has a later tail, so the debug assertion is never reached |
| NoteModelListProxy.SearchTailOf | Assets/Scripts/Project/Models/ChartModel.cs:267-274 | -1 for a non-hold; otherwise -1 or an index of the hold's tail that comes after the hold's head, and an index whenever the tail follows the head |
| NoteModelListProxy.GetCollidedNotesTo | Assets/Scripts/Project/Models/ChartModel.cs:280-310 | the heads collected by the downward scan, then those collected by the upward scan |
| NoteModelListProxy.CollectDown | Assets/Scripts/Project/Models/ChartModel.cs:287-296 | the downward loop collects `ScanDown`: tails skipped, stop at the first head outside the time threshold |
| NoteModelListProxy.CollectUp | Assets/Scripts/Project/Models/ChartModel.cs:298-307 | the upward loop collects `ScanUp`, with the edited note as left operand |
| NoteModelListProxy.ScanDownSound | Assets/Scripts/Project/Models/ChartModel.cs:287-296 | each note the downward scan collects is a head below the edited one that collides with it |
| NoteModelListProxy.ScanDownComplete | Assets/Scripts/Project/Models/ChartModel.cs:287-296 | on an ordered sequence the downward scan misses no colliding head below |
| NoteModelListProxy.ScanUpSound | Assets/Scripts/Project/Models/ChartModel.cs:298-307 | each note the upward scan collects is a head above the edited one that collides with it |
| NoteModelListProxy.ScanUpComplete | Assets/Scripts/Project/Models/ChartModel.cs:298-307 | on an ordered sequence the upward scan misses no colliding head above |
| NoteModelListProxy.CollidedNotesSound | Assets/Scripts/Project/Models/ChartModel.cs:280-310 | every result is another head colliding with the edited one |
| NoteModelListProxy.CollidedNotesComplete | Assets/Scripts/Project/Models/ChartModel.cs:280-310 | on an ordered sequence every other colliding head is in the result |
| NoteModelListProxy.CollidedNotesExact | Assets/Scripts/Project/Models/ChartModel.cs:280-310 | on an ordered sequence the result is exactly the other heads colliding with the edited one |
| BinaryStreams.EncU16 | Assets/Scripts/Project/ProjectManager.IO.cs:60 | a `ushort` is two bytes |
| BinaryStreams.EncI32 | Assets/Scripts/Project/ProjectManager.IO.cs:79-82 | an `int` is four bytes |
| BinaryStreams.EncF32 | Assets/Scripts/Project/ProjectManager.IO.cs:196-201 | a `float` is a four-unit chunk |
| BinaryStreams.EncBool | Assets/Scripts/Project/ProjectManager.IO.cs:202-203 | a `bool` is one byte |
| BinaryStreams.EncStr | Assets/Scripts/Project/ProjectManager.IO.cs:69-71 | a string is its length followed by its characters |
| BinaryStreams.EncBytes | Assets/Scripts/Project/ProjectManager.IO.cs:80 | a byte array is its bytes, without a length |
| BinaryStreams.DecU8 | Assets/Scripts/Project/ProjectManager.IO.cs:45 | `ReadByte` consumes one unit |
| BinaryStreams.DecU16 | Assets/Scripts/Project/ProjectManager.IO.cs:41 | `ReadUInt16` consumes two units and yields a value below 65536 |
| BinaryStreams.DecI32 | Assets/Scripts/Project/ProjectManager.IO.cs:110 | `ReadInt32` consumes four units |
| BinaryStreams.DecF32 | Assets/Scripts/Project/ProjectManager.IO.cs:223-228 | `ReadSingle` consumes four units |
| BinaryStreams.DecBool | Assets/Scripts/Project/ProjectManager.IO.cs:229-230 | `ReadBoolean` consumes one unit |
| BinaryStreams.DecStr | Assets/Scripts/Project/ProjectManager.IO.cs:99-101 | `ReadString` consumes the length and that many characters |
| BinaryStreams.DecBytes | Assets/Scripts/Project/ProjectManager.IO.cs:111 | `ReadBytes(n)` fails on a negative count and otherwise reads `n` bytes, or all that are left if fewer |
| BinaryStreams.U8RoundTrip | Assets/Scripts/Project/ProjectManager.IO.cs:45-61 | a byte written reads back, leaving what follows |
| BinaryStreams.U16RoundTrip | Assets/Scripts/Project/ProjectManager.IO.cs:41-60 | a `ushort` written reads back, leaving what follows |
| BinaryStreams.I32RoundTrip | Assets/Scripts/Project/ProjectManager.IO.cs:79-110 | an `int` written reads back, leaving what follows |
| BinaryStreams.F32RoundTrip | Assets/Scripts/Project/ProjectManager.IO.cs:196-228 | a `float` written reads back, leaving what follows |
| BinaryStreams.I32OfF32 | Assets/Scripts/Project/ProjectManager.IO.cs:154-171 | `ReadInt32` over a written `float` yields the float's bit pattern |
| BinaryStreams.BoolRoundTrip | Assets/Scripts/Project/ProjectManager.IO.cs:202-230 | a `bool` written reads back, leaving what follows |
| BinaryStreams.StrRoundTrip | Assets/Scripts/Project/ProjectManager.IO.cs:69-101 | a string written reads back, leaving what follows |
| BinaryStreams.BytesRoundTrip | Assets/Scripts/Project/ProjectManager.IO.cs:79-111 | bytes written read back when asked for their count, leaving what follows |
| BinaryStreams.ListRoundTrip | Assets/Scripts/Project/ProjectManager.IO.cs:159-184 | a list written item by item reads back item by item, in order, when each item does |
| BinaryStreams.DecManySnoc | Assets/Scripts/Project/ProjectManager.IO.cs:179-180 | reading one more item after the first `i` extends the list read |
| BinaryStreams.DecManyStuck | Assets/Scripts/Project/ProjectManager.IO.cs:179-180 | an item that cannot be read fails the whole list |
| BinaryStreams.DecManyLength | Assets/Scripts/Project/ProjectManager.IO.cs:177-180 | a list of `count` items reads as `count` items |
| BinaryStreams.BinaryWriter.constructor | Assets/Scripts/Project/ProjectManager.IO.cs:58 | a new writer has written nothing |
| BinaryStreams.BinaryWriter.WriteU8 | Assets/Scripts/Project/ProjectManager.IO.cs:61 | appends the byte's encoding |
| BinaryStreams.BinaryWriter.WriteU16 | Assets/Scripts/Project/ProjectManager.IO.cs:60 | appends the `ushort`'s encoding |
| BinaryStreams.BinaryWriter.WriteI32 | Assets/Scripts/Project/ProjectManager.IO.cs:82 | appends the `int`'s encoding |
| BinaryStreams.BinaryWriter.WriteF32 | Assets/Scripts/Project/ProjectManager.IO.cs:196-201 | appends the `float`'s encoding |
| BinaryStreams.BinaryWriter.WriteBool | Assets/Scripts/Project/ProjectManager.IO.cs:202-203 | appends the `bool`'s encoding |
| BinaryStreams.BinaryWriter.WriteStr | Assets/Scripts/Project/ProjectManager.IO.cs:69-71 | appends the string's encoding |
| BinaryStreams.BinaryWriter.WriteBytes | Assets/Scripts/Project/ProjectManager.IO.cs:80 | appends the bytes |
| BinaryStreams.BinaryReader.constructor | Assets/Scripts/Project/ProjectManager.IO.cs:39 | a new reader has the whole stream unread |
| BinaryStreams.BinaryReader.ReadU8 | Assets/Scripts/Project/ProjectManager.IO.cs:45 | reads as `DecU8` reads and advances past it |
| BinaryStreams.BinaryReader.ReadU16 | Assets/Scripts/Project/ProjectManager.IO.cs:41 | reads as `DecU16` reads and advances past it |
| BinaryStreams.BinaryReader.ReadI32 | Assets/Scripts/Project/ProjectManager.IO.cs:110 | reads as `DecI32` reads and advances past it |
| BinaryStreams.BinaryReader.ReadF32 | Assets/Scripts/Project/ProjectManager.IO.cs:123-124 | reads as `DecF32` reads and advances past it |
| BinaryStreams.BinaryReader.ReadBool | Assets/Scripts/Project/ProjectManager.IO.cs:102 | reads as `DecBool` reads and advances past it |
| BinaryStreams.BinaryReader.ReadStr | Assets/Scripts/Project/ProjectManager.IO.cs:99-101 | reads as `DecStr` reads and advances past it |
| BinaryStreams.BinaryReader.ReadBytes | Assets/Scripts/Project/ProjectManager.IO.cs:111 | reads as `DecBytes` reads and advances past it |
| ProjectIO.EncCount | Assets/Scripts/Project/ProjectManager.IO.cs:82-87 | a list count is written as a four-byte `int` |
| ProjectIO.SaveHeader | Assets/Scripts/Project/ProjectManager.IO.cs:60-62 | a saved file starts with 0xE0, 0xDE (the header 0xDEE0, low byte first) and the version byte 1 |
| ProjectIO.DecCount | Assets/Scripts/Project/ProjectManager.IO.cs:113-114 | a count read consumes four units and is between 0 and the largest `int`. It succeeds iff an `int` can be read and is non-negative, and is then that `int` with the same rest; a negative `int` is rejected, as setting `Capacity` to it throws |
| ProjectIO.DecodeFile | Assets/Scripts/Project/ProjectManager.IO.cs:30-50 | a wrong header or a wrong version is not a project (`null`); a loaded file had both right |
| ProjectIO.CountRoundTrip | Assets/Scripts/Project/ProjectManager.IO.cs:82-114 | a count written reads back |
| ProjectIO.SoundRoundTrip | Assets/Scripts/Project/ProjectManager.IO.cs:239-254 | a sound record reads back field for field (`EncSound`/`DecSound`) |
| ProjectIO.SoundsRoundTrip | Assets/Scripts/Project/ProjectManager.IO.cs:193-222 | a note's sound list reads back in order |
| ProjectIO.NoteFieldsRoundTrip | Assets/Scripts/Project/ProjectManager.IO.cs:196-233 | the note fields after the sounds read back, from `Position` to `IsSlide` (`EncNoteFields`/`DecNoteFields`) |
| ProjectIO.NoteRoundTrip | Assets/Scripts/Project/ProjectManager.IO.cs:189-237 | a note reads back with every written field, type and sounds included, and without links (`EncNote`/`DecNote`) |
| ProjectIO.NotesRoundTrip | Assets/Scripts/Project/ProjectManager.IO.cs:159-180 | a chart's note list reads back in order, the notes without links |
| ProjectIO.LineRoundTrip | Assets/Scripts/Project/ProjectManager.IO.cs:256-271 | a speed line reads back field for field (`EncLine`/`DecLine`) |
| ProjectIO.LinesRoundTrip | Assets/Scripts/Project/ProjectManager.IO.cs:162-184 | a chart's speed lines read back in order |
| ProjectIO.ChartDataListsRoundTrip | Assets/Scripts/Project/ProjectManager.IO.cs:159-184 | the note and speed-line lists read back, each after its count (`EncChartDataLists`/`DecChartDataLists`) |
| ProjectIO.ChartDataRoundTrip | Assets/Scripts/Project/ProjectManager.IO.cs:152-187 | chart data reads back with every field, except that the speed comes back as its float's bit pattern (`EncChartData`/`DecChartData`) |
| ProjectIO.ChartRoundTrip | Assets/Scripts/Project/ProjectManager.IO.cs:132-150 | difficulty and level read back, and the data as above (`EncChart`/`DecChart`) |
| ProjectIO.ChartsRoundTrip | Assets/Scripts/Project/ProjectManager.IO.cs:82-118 | the chart list reads back in order |
| ProjectIO.TempoRoundTrip | Assets/Scripts/Project/ProjectManager.IO.cs:88-126 | a tempo's bpm and start time read back (`EncTempo`/`DecTempo`) |
| ProjectIO.TemposRoundTrip | Assets/Scripts/Project/ProjectManager.IO.cs:87-126 | the tempo list reads back in order |
| ProjectIO.AudioRoundTrip | Assets/Scripts/Project/ProjectManager.IO.cs:72-112 | the reader takes the writer's audio branch: the path, or exactly the written bytes (`EncAudio`/`DecAudio`) |
| ProjectIO.ProjectListsRoundTrip | Assets/Scripts/Project/ProjectManager.IO.cs:82-126 | the chart and tempo lists read back (`EncProjectLists`/`DecProjectLists`) |
| ProjectIO.ProjectRoundTrip | Assets/Scripts/Project/ProjectManager.IO.cs:67-130 | a project reads back as saved: names, flag, audio branch, charts (as above) and tempos (`EncProject`/`DecProject`) |
| ProjectIO.LoadOfSave | Assets/Scripts/Project/ProjectManager.IO.cs:30-63 | loading a saved file gives the project back, except the note links, the unused audio field and each chart's speed (`EncodeFile`/`DecodeFile`) |
| ProjectIO.LoadOfSaveOverStale | Assets/Scripts/Project/ProjectManager.IO.cs:30-63 | a saved file followed by any stale tail, as `File.OpenWrite` over a longer file leaves it, loads as the saved project |
| ProjectIO.LoadedSpeed | Assets/Scripts/Project/ProjectManager.IO.cs:154-171 | each loaded chart's speed is the bit pattern of the saved speed |
| ProjectIO.SpeedNotPreserved | Assets/Scripts/Project/ProjectManager.IO.cs:154-171 | a chart whose speed is not its own bit pattern does not load back as saved |
| ProjectManager.WriteSoundData | Assets/Scripts/Project/ProjectManager.IO.cs:239-245 | appends exactly `EncSound` of the sound |
| ProjectManager.WriteSounds | Assets/Scripts/Project/ProjectManager.IO.cs:194-195 | appends the sounds' encodings in order |
| ProjectManager.WriteNoteData | Assets/Scripts/Project/ProjectManager.IO.cs:189-210 | appends exactly `EncNote` of the note |
| ProjectManager.WriteNoteFields | Assets/Scripts/Project/ProjectManager.IO.cs:196-207 | appends the note fields after the sounds |
| ProjectManager.WriteNotes | Assets/Scripts/Project/ProjectManager.IO.cs:160-161 | appends the notes' encodings in order |
| ProjectManager.WriteSpeedLineData | Assets/Scripts/Project/ProjectManager.IO.cs:256-262 | appends exactly `EncLine` of the line |
| ProjectManager.WriteSpeedLines | Assets/Scripts/Project/ProjectManager.IO.cs:163-164 | appends the lines' encodings in order |
| ProjectManager.WriteChartData | Assets/Scripts/Project/ProjectManager.IO.cs:152-165 | appends exactly `EncChartData`, the speed written as a float |
| ProjectManager.WriteChartDataLists | Assets/Scripts/Project/ProjectManager.IO.cs:159-164 | appends both counted lists |
| ProjectManager.WriteChart | Assets/Scripts/Project/ProjectManager.IO.cs:132-137 | appends exactly `EncChart` |
| ProjectManager.WriteCharts | Assets/Scripts/Project/ProjectManager.IO.cs:83-86 | appends the charts' encodings in order |
| ProjectManager.WriteTempos | Assets/Scripts/Project/ProjectManager.IO.cs:88-92 | appends the tempos' encodings in order |
| ProjectManager.WriteProject | Assets/Scripts/Project/ProjectManager.IO.cs:67-93 | appends exactly `EncProject` |
| ProjectManager.WriteProjectLists | Assets/Scripts/Project/ProjectManager.IO.cs:82-92 | appends both counted lists |
| ProjectManager.Save | Assets/Scripts/Project/ProjectManager.IO.cs:55-63 | the file written is `EncodeFile` of the project |
| ProjectManager.ReadCount | Assets/Scripts/Project/ProjectManager.IO.cs:113-114 | reads as `DecCount` reads |
| ProjectManager.ReadSoundData | Assets/Scripts/Project/ProjectManager.IO.cs:247-254 | reads as `DecSound` reads, failing exactly when it fails |
| ProjectManager.ReadSounds | Assets/Scripts/Project/ProjectManager.IO.cs:220-222 | the counted loop reads as `DecMany(DecSound)` does |
| ProjectManager.ReadNoteData | Assets/Scripts/Project/ProjectManager.IO.cs:212-237 | reads as `DecNote` reads |
| ProjectManager.ReadNoteFields | Assets/Scripts/Project/ProjectManager.IO.cs:223-233 | reads as `DecNoteFields` reads |
| ProjectManager.ReadNotes | Assets/Scripts/Project/ProjectManager.IO.cs:178-180 | the counted loop reads as `DecMany(DecNote)` does |
| ProjectManager.ReadSpeedLineData | Assets/Scripts/Project/ProjectManager.IO.cs:264-271 | reads as `DecLine` reads |
| ProjectManager.ReadSpeedLines | Assets/Scripts/Project/ProjectManager.IO.cs:182-184 | the counted loop reads as `DecMany(DecLine)` does |
| ProjectManager.ReadChartData | Assets/Scripts/Project/ProjectManager.IO.cs:167-187 | reads as `DecChartData` reads, the speed with `ReadInt32` |
| ProjectManager.ReadChartDataLists | Assets/Scripts/Project/ProjectManager.IO.cs:177-184 | reads as `DecChartDataLists` reads |
| ProjectManager.ReadChart | Assets/Scripts/Project/ProjectManager.IO.cs:139-150 | reads as `DecChart` reads |
| ProjectManager.ReadCharts | Assets/Scripts/Project/ProjectManager.IO.cs:114-118 | the counted loop reads as `DecMany(DecChart)` does |
| ProjectManager.ReadTempo | Assets/Scripts/Project/ProjectManager.IO.cs:123-125 | reads as `DecTempo` reads |
| ProjectManager.ReadTempos | Assets/Scripts/Project/ProjectManager.IO.cs:120-126 | the counted loop reads as `DecMany(DecTempo)` does |
| ProjectManager.ReadProject | Assets/Scripts/Project/ProjectManager.IO.cs:95-130 | reads as `DecProject` reads |
| ProjectManager.ReadProjectLists | Assets/Scripts/Project/ProjectManager.IO.cs:113-127 | reads as `DecProjectLists` reads |
| ProjectManager.Load | Assets/Scripts/Project/ProjectManager.IO.cs:30-50 | the result is `DecodeFile` of the file: header and version checked, then the project read |
| ProjectManager.SaveThenLoad | Assets/Scripts/Project/ProjectManager.IO.cs:30-63 | saving and loading through the writer and the reader gives the saved project back, speeds as bit patterns |
| Utils.IndexOfAny | Assets/Scripts/Utilities/Utils.cs:14-18 | the first index of a character from the set, or -1 when there is none |
| Utils.IsValidFileName | Assets/Scripts/Utilities/Utils.cs:14-15 | true iff no character of the name is an invalid file-name character |
| Utils.IsValidPath | Assets/Scripts/Utilities/Utils.cs:17-18 | true iff no character of the path is an invalid path character |
| Utils.EndsWithOneOf | Assets/Scripts/Utilities/Utils.cs:20-27 | true iff one of the ends is a suffix of the string |
| Utils.SequenceEqual | Assets/Scripts/Utilities/Utils.cs:41-51 | true iff the lengths match and the elements are pairwise equal |
| Utils.IncAndTryWrap | Assets/Scripts/Utilities/Utils.cs:29-39 | wraps iff the sum exceeds `max`; the value becomes the sum, less `max` when it wraps; a value and a delta in [0, max] stay in [0, max] |
| Utils.RemovedAt | Assets/Scripts/Utilities/Utils.cs:65 | `RemoveAt(i)`: one element shorter, the elements after `i` shifted down |
| Utils.InsertedAt | Assets/Scripts/Utilities/Utils.cs:66 | `Insert(i, x)`: one element longer, `x` at `i`, the elements from `i` shifted up |
| Utils.Removed | Assets/Scripts/Utilities/Utils.cs:56 | `RemoveRange(offset, length)`: the `length` elements from `offset` removed, the others kept in order |
| Utils.OffsetAndLength | Assets/Scripts/Utilities/Utils.cs:55 | `GetOffsetAndLength` succeeds iff the range's start and end are in order within the list, and then gives the start and the number of elements |
| Utils.ItemList.RemoveRange | Assets/Scripts/Utilities/Utils.cs:53-57 | a valid range removes exactly its elements; an invalid one throws and changes nothing |
| Utils.ItemList.MoveTo | Assets/Scripts/Utilities/Utils.cs:59-67 | equal indices change nothing; a bad `from` throws before any change; a bad `to` throws after the removal; otherwise the list becomes `Moved` |
| Utils.MovedPermutes | Assets/Scripts/Utilities/Utils.cs:59-67 | a move keeps the length and the multiset of elements |
| Utils.MovedPlaces | Assets/Scripts/Utilities/Utils.cs:59-67 | after a move the old `list[from]` is at `to` and the other elements keep their relative order |
| Utils.MoveToSelf | Assets/Scripts/Utilities/Utils.cs:61-67 | removing and reinserting at the same index restores the list, which is why `from == to` may return early |
| Utils.Array | Assets/Scripts/Utilities/Utils.cs:69-75 | an array of the requested length, a new one when the length is positive |
| Utils.IsSameForAll | Assets/Scripts/Utilities/Utils.cs:77-100 | true with the default value for a null or empty list, or with the first value for one element. Otherwise it is true iff the comparer finds every value equal to the first, and the value is the first on true or the default on false. Under default equality it is true iff all values are pairwise equal. |

## Left out

- File and thread I/O: `File.OpenRead`/`OpenWrite`, `ReadAllBytes`, `CreateNewProject`, the `UniTask` wrappers. A file is the unit sequence it holds: `Save` returns it and `Load` takes it. `File.OpenWrite` does not truncate, so saving over a longer file leaves the old tail after the new contents; `ProjectIO.LoadOfSaveOverStale` shows that loading such a file still gives the saved project.
- The `.dsproj` branch of `Load`: `TryLoadFromDsproj` is not part of this model.
- JSON serialization attributes and their defaults.
- IEEE single precision: floats are reals, and the bit pattern `ReadInt32` sees in a float is the parameter `bits`.
- The string encoding: a length unit followed by characters stands for the 7-bit length prefix and the UTF-8 bytes.
- Reading a byte where a float is stored, and the other ways of reading a unit as the wrong kind: these fail (`None`) instead of producing the bytes' reinterpretation.
- Trailing data after the project in a file is ignored, as the source ignores it.
- Exceptions are `None` results, `Threw` in `ProjectIO.DecodeFile`, or `ok == false`. Which exception is thrown is not modelled.
- `ProjectIO.Savable` (and the `WriteX` preconditions built on it): each list written must have a `Count` that fits an `int`, as .NET lists always do.
- The chart `Name` is not written by `WriteChart`, so the file format has no name field.
- `ProjectModel` and its defaults, `ChartData.Clone` and `ProjectModel.InitializeHelper.SetTempoList` are not part of this model. `ChartModels.ChartModel.CloneForSave` takes the cloned data as a parameter.
- Object identity: a `NoteModel` of the projection is a read-only `NoteRef` (input index and note). A note's slide links are indices into the note sequence that holds it. `ReferenceEquals` becomes equality of these values. A note that several models or lists share, and a change through one alias seen through another, are not modelled.
- NoteModels.NoteModel: `Data` is a value copy of the note, so a change made later to the shared `NoteData` object is not seen through the model.
- `NoteTimeComparer` and `NoteTailModel` are not part of this model. Entries compare by time: a head at its note's time, a tail at its hold's end time. The order assertions become the ordering lemmas.
- List enumerators and `EnumerateSelectableModels` are not modelled; the merge's two enumerators are two cursors. The enumerator of the visible list as written, copied on every call, is modelled only for the helper's loop (`ChartModels.MoveNextPassAsWritten`).
- MergeProjection: computes the intended merge. As written, the source's merge never returns on a non-empty visible list (see "## Findings").
- ChartModels.ChartModel.CloneForSave: appends to this chart's own note list, as line 124 is written. `ChartData.Clone` is not part of this model, so whether the new chart shares that list is not known here. The appended list is the corrected merge; as written, the call does not return when a note is on stage (`ChartModels.MergeNotesAsWrittenStuck`).
- ChartModels.InitializeData: compares the data by value, while the source compares `ChartData` references. A different `ChartData` object with equal contents makes the source rebuild the projection, and the model keep it; the two differ once a save has appended clones to the list the projection was built from.
- NoteModelListProxy.SearchTailAt: requires an index inside the visible sequence; for any other index the source's indexer throws.
- NoteModelListProxy.SearchTailOf: requires that a hold head is present in a time-ordered sequence. When `Search` misses, the source indexes the list with a negative number and throws.
- NoteModelListProxy.GetCollidedNotesTo: requires that the entry at `noteIndex` is a head, which the source checks with a debug assertion and a cast that throws.
- Args.ClampNoteTime and the z conversions: the stage's music length, time-to-z multiplier and note speed are parameters rather than `GameStage` state. `NoteAppearZ` reads only stage state and is left out.
- Args.OffsetTimeZRoundTrip: requires a non-zero multiplier and note speed, since otherwise the source divides by zero.
- Colours, the singleton, and the dialogs of `MainSystem` outside `Args`.
- Utils.EndsWithOneOf: the comparison of suffixes is ordinal. Culture-sensitive comparison is not modelled.
- Utils.IsValidFileName and Utils.IsValidPath: the platform's invalid characters are a parameter.
- Utils.Array: the length is a `nat`, so the exception for a negative length is not modelled. It is not stated that every empty result is the shared `Array.Empty` instance.
- Utils.IsSameForAll: a null `ListReadOnlyView` is `None`. A custom comparer is taken to be a function, with no notion of whether it is a correct equality.

## Findings

| source | as written | input that shows it | evidently intended | confidence | as-written member | corrected member |
|---|---|---|---|---|---|---|
| Assets/Scripts/Project/Models/ChartModel.cs:144-160 | `MoveNextOfNoteHeadModel` takes the `List<T>.Enumerator` struct by `in`, so `MoveNext` and `Current` work on defensive copies. The caller's enumerator never moves, `Current` stays null, and the `while` goes round for ever. | any chart with one note on stage, e.g. a single tap at position 0 | the enumerator advanced in place (a `ref` parameter over a non-readonly local), giving the ordered merge of heads and background | not executed; medium (a reading of C#'s defensive-copy rule for `in` parameters) | ChartModels.MergeNotesAsWrittenStuck | ChartModels.MergeProjection |
