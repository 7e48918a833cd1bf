/** `MainSystem.Args`: the stage bounds, clamps, coordinate conversions,
    collision thresholds and file-format constants of the editor.
    Floating point values are modelled as reals. */
module Args {

  /** A note's place on the stage: its lane position and its time. */
  datatype NoteCoord = NoteCoord(position: real, time: real)

  const NoteSelectionMaxPosition: real := 4.0

  /** Notes with a position in [-StageMaxPosition, StageMaxPosition] are on stage. */
  const StageMaxPosition: real := 2.0

  const MinNoteSize: real := 0.1
  const MaxNoteSize: real := 5.0

  /** `Mathf.Clamp`: lower bound checked first, then the upper bound. */
  function Clamp(value: real, min: real, max: real): (r: real)
    ensures min <= max ==> min <= r <= max
    ensures min <= value <= max ==> r == value
    ensures value < min ==> r == min
    ensures min <= max && max < value ==> r == max
  {
    if value < min then min else if value > max then max else value
  }

  /** `ClampNoteTime`, with the music length of the running stage as a parameter. */
  function ClampNoteTime(time: real, musicLength: real): (r: real)
    requires 0.0 <= musicLength
    ensures 0.0 <= r <= musicLength
    ensures 0.0 <= time <= musicLength ==> r == time
  {
    Clamp(time, 0.0, musicLength)
  }

  function ClampNotePosition(position: real): (r: real)
    ensures -StageMaxPosition <= r <= StageMaxPosition
    ensures -StageMaxPosition <= position <= StageMaxPosition ==> r == position
    ensures position < -StageMaxPosition ==> r == -StageMaxPosition
    ensures StageMaxPosition < position ==> r == StageMaxPosition
  {
    Clamp(position, -StageMaxPosition, StageMaxPosition)
  }

  function ClampNoteSize(size: real): (r: real)
    ensures MinNoteSize <= r <= MaxNoteSize
    ensures MinNoteSize <= size <= MaxNoteSize ==> r == size
  {
    Clamp(size, MinNoteSize, MaxNoteSize)
  }

  /** Clamping a position twice is clamping it once. */
  lemma ClampNotePositionIdempotent(position: real)
    ensures ClampNotePosition(ClampNotePosition(position)) == ClampNotePosition(position)
  {
  }

  const PositionToXMultiplier: real := 1.63

  function PositionToX(position: real): real {
    position * PositionToXMultiplier
  }

  function XToPosition(x: real): real {
    x / PositionToXMultiplier
  }

  /** Over the reals, the two stage conversions are inverse to each other. */
  lemma PositionXRoundTrip(position: real, x: real)
    ensures XToPosition(PositionToX(position)) == position
    ensures PositionToX(XToPosition(x)) == x
  {
  }

  /** `OffsetTimeToZ`, with the stage's time-to-z multiplier and note speed as parameters. */
  function OffsetTimeToZ(offsetTimeToStage: real, noteTimeToZMultiplier: real, noteSpeed: real): real {
    offsetTimeToStage * noteTimeToZMultiplier * noteSpeed
  }

  /** `ZToOffsetTime`, with the same two stage parameters. */
  function ZToOffsetTime(z: real, noteTimeToZMultiplier: real, noteSpeed: real): real
    requires noteTimeToZMultiplier != 0.0 && noteSpeed != 0.0
  {
    z / noteTimeToZMultiplier / noteSpeed
  }

  /** For a non-zero multiplier and speed, z and offset time convert back and forth exactly. */
  lemma OffsetTimeZRoundTrip(offset: real, m: real, s: real)
    requires m != 0.0 && s != 0.0
    ensures ZToOffsetTime(OffsetTimeToZ(offset, m, s), m, s) == offset
  {
    calc {
      ZToOffsetTime(OffsetTimeToZ(offset, m, s), m, s);
      offset * m * s / m / s;
      { assert offset * m * s / m == offset * s; }
      offset * s / s;
    }
  }

  /** `NoteCoordToWorldPosition`: the stage x of the position and the z of the time offset. */
  function NoteCoordToWorldPosition(coord: NoteCoord, currentTime: real, noteTimeToZMultiplier: real, noteSpeed: real): (real, real) {
    (PositionToX(coord.position), OffsetTimeToZ(coord.time - currentTime, noteTimeToZMultiplier, noteSpeed))
  }

  /** The world position of a coordinate converts back: its x to the note's
      position, and its z, for a non-zero multiplier and speed, to the
      note's offset from the current time. */
  lemma WorldPositionRoundTrip(coord: NoteCoord, currentTime: real, m: real, s: real)
    ensures XToPosition(NoteCoordToWorldPosition(coord, currentTime, m, s).0) == coord.position
    ensures m != 0.0 && s != 0.0 ==>
              ZToOffsetTime(NoteCoordToWorldPosition(coord, currentTime, m, s).1, m, s) == coord.time - currentTime
  {
    PositionXRoundTrip(coord.position, 0.0);
    if m != 0.0 && s != 0.0 {
      OffsetTimeZRoundTrip(coord.time - currentTime, m, s);
    }
  }

  const MaxBpm: real := 1200.0
  const MinBeatLineInterval: real := 60.0 / 1200.0

  /** The shortest beat-line interval is one beat at the highest tempo. */
  lemma MinBeatLineIntervalIsOneBeatAtMaxBpm()
    ensures MinBeatLineInterval == 60.0 / MaxBpm
    ensures MinBeatLineInterval * MaxBpm == 60.0
  {
  }

  const NoteTimeCollisionThreshold: real := 0.001
  const NotePositionCollisionThreshold: real := 0.01

  function Abs(x: real): (r: real)
    ensures r >= 0.0 && (r == x || r == -x)
  {
    if x < 0.0 then -x else x
  }

  predicate IsTimeCollided(left: NoteCoord, right: NoteCoord) {
    Abs(right.time - left.time) <= NoteTimeCollisionThreshold
  }

  predicate IsPositionCollided(left: NoteCoord, right: NoteCoord) {
    Abs(right.position - left.position) <= NotePositionCollisionThreshold
  }

  predicate IsCollided(left: NoteCoord, right: NoteCoord) {
    IsTimeCollided(left, right) && IsPositionCollided(left, right)
  }

  /** Both collision predicates, and so their conjunction, are symmetric. */
  lemma CollisionSymmetric(a: NoteCoord, b: NoteCoord)
    ensures IsTimeCollided(a, b) == IsTimeCollided(b, a)
    ensures IsPositionCollided(a, b) == IsPositionCollided(b, a)
    ensures IsCollided(a, b) == IsCollided(b, a)
  {
  }

  /** Two coordinates collide exactly when their times are within 0.001 and their positions within 0.01. */
  lemma CollidedIffClose(a: NoteCoord, b: NoteCoord)
    ensures IsCollided(a, b) <==>
              -0.001 <= b.time - a.time <= 0.001 && -0.01 <= b.position - a.position <= 0.01
  {
  }

  const DeenotePreferFileExtension: string := ".dnt"
  const DeenoteProjectFileHeader: nat := 0xDEE0
  const DeenoteProjectFileVersionMark: nat := 1

  const SupportAudioFileExtensions: seq<string> := [".mp3", ".wav"]
  const SupportProjectFileExtensions: seq<string> := [DeenotePreferFileExtension, ".dsproj"]
  const SupportChartFileExtensions: seq<string> := [".json", ".txt"]
}
