/** `ProjectManager` file I/O: the `.dnt` project file, a `0xDEE0` header and
    version byte 1 followed by the project written field by field, with
    count-prefixed lists of charts, notes, sounds, speed lines and tempos.

    Each record has an encoder (what `WriteX` appends) and a decoder (what
    `ReadX` reads at a cursor); the `ProjectManager` module does the same with
    a `BinaryWriter` and a `BinaryReader` and proves its methods equal to them. */
module ProjectIO {
  import opened Common
  import opened BinaryStreams
  import opened PianoSounds
  import opened NoteDatas
  import opened ChartDatas

  /** A tempo of the project: beats per minute from a start time. */
  datatype Tempo = Tempo(bpm: real, startTime: real)

  /** What the file keeps of a chart: its difficulty, level and data. */
  datatype ChartRecord = ChartRecord(difficulty: int32, level: string, data: ChartData)

  /** What the file keeps of a project. The audio is either a path
      (`saveAsRefPath`) or the embedded audio bytes. */
  datatype ProjectRecord = ProjectRecord(
    musicName: string,
    composer: string,
    chartDesigner: string,
    saveAsRefPath: bool,
    audioFileRelativePath: string,
    audioData: seq<byte>,
    charts: seq<ChartRecord>,
    tempos: seq<Tempo>)

  /** `Load`: a project, `null` for a file that is not a project, or an exception. */
  datatype LoadResult = NotAProject | Threw | Loaded(project: ProjectRecord)

  const FileHeader: nat := 0xDEE0
  const FileVersion: byte := 1

  // ---------------------------------------------------------------------------
  // Encoders

  /** Every list `Count` is an `int`. */
  predicate NoteSavable(n: NoteData) {
    |n.sounds| <= MaxCount
  }

  predicate ChartDataSavable(c: ChartData) {
    && |c.notes| <= MaxCount && |c.speedLines| <= MaxCount
    && forall i :: 0 <= i < |c.notes| ==> NoteSavable(c.notes[i])
  }

  predicate ChartSavable(c: ChartRecord) {
    ChartDataSavable(c.data)
  }

  predicate Savable(p: ProjectRecord) {
    && |p.audioData| <= MaxCount && |p.charts| <= MaxCount && |p.tempos| <= MaxCount
    && forall i :: 0 <= i < |p.charts| ==> ChartSavable(p.charts[i])
  }

  /** A list count, written as an `int`. */
  function EncCount(n: nat): (u: seq<Unit>)
    requires n <= MaxCount
    ensures |u| == 4
  {
    EncI32(n as int32)
  }

  /** `WriteSoundData`: delay and duration as floats, pitch and velocity as ints. */
  function EncSound(s: PianoSoundValueData): seq<Unit> {
    EncF32(s.delay) + (EncF32(s.duration) + (EncI32(s.pitch) + EncI32(s.velocity)))
  }

  /** `WriteNoteData`: type, the sounds, six floats, two flags, the warning
      type, the event id and the slide flag; the links are not written. */
  function EncNote(n: NoteData): seq<Unit>
    requires NoteSavable(n)
  {
    EncI32(n.noteType) + (EncCount(|n.sounds|) + (EncList(EncSound, n.sounds) + EncNoteFields(n)))
  }

  /** The fields of `WriteNoteData` after the sounds. */
  function EncNoteFields(n: NoteData): seq<Unit> {
    EncF32(n.position) + (EncF32(n.size) + (EncF32(n.time) + (EncF32(n.shift) + (EncF32(n.speed) +
    (EncF32(n.duration) + (EncBool(n.vibrate) + (EncBool(n.isSwipe) + (EncI32(n.warningType) +
    (EncStr(n.eventId) + EncBool(n.isSlide))))))))))
  }

  /** `WriteSpeedLineData`: speed, start and end time as floats, the warning type as an int. */
  function EncLine(l: SpeedLine): seq<Unit> {
    EncF32(l.speed) + (EncF32(l.startTime) + (EncF32(l.endTime) + EncI32(l.warningType)))
  }

  /** `WriteChartData`: the speed as a float, the four velocity ints, then the notes and the speed lines. */
  function EncChartData(c: ChartData): seq<Unit>
    requires ChartDataSavable(c)
  {
    EncF32(c.speed) + (EncI32(c.minVelocity) + (EncI32(c.maxVelocity) + (EncI32(c.remapMinVelocity) +
    (EncI32(c.remapMaxVelocity) + EncChartDataLists(c)))))
  }

  /** The end of `WriteChartData`: the notes, then the speed lines, each list after its count. */
  function EncChartDataLists(c: ChartData): seq<Unit>
    requires ChartDataSavable(c)
  {
    EncCount(|c.notes|) + (EncList(EncNote, c.notes) + (EncCount(|c.speedLines|) + EncList(EncLine, c.speedLines)))
  }

  /** `WriteChart`: the difficulty as an int, the level, then the chart data. */
  function EncChart(c: ChartRecord): seq<Unit>
    requires ChartSavable(c)
  {
    EncI32(c.difficulty) + (EncStr(c.level) + EncChartData(c.data))
  }

  function EncTempo(t: Tempo): seq<Unit> {
    EncF32(t.bpm) + EncF32(t.startTime)
  }

  /** The audio section: a path, or a length and the bytes. */
  function EncAudio(p: ProjectRecord): seq<Unit>
    requires |p.audioData| <= MaxCount
  {
    if p.saveAsRefPath then EncStr(p.audioFileRelativePath)
    else EncCount(|p.audioData|) + EncBytes(p.audioData)
  }

  /** `WriteProject`. */
  function EncProject(p: ProjectRecord): seq<Unit>
    requires Savable(p)
  {
    EncStr(p.musicName) + (EncStr(p.composer) + (EncStr(p.chartDesigner) + (EncBool(p.saveAsRefPath) +
    (EncAudio(p) + EncProjectLists(p)))))
  }

  /** The end of `WriteProject`: the charts, then the tempos, each list after its count. */
  function EncProjectLists(p: ProjectRecord): seq<Unit>
    requires Savable(p)
  {
    EncCount(|p.charts|) + (EncList(EncChart, p.charts) + (EncCount(|p.tempos|) + EncList(EncTempo, p.tempos)))
  }

  /** `Save`: the header, the version, then the project. */
  function EncodeFile(p: ProjectRecord): seq<Unit>
    requires Savable(p)
  {
    EncU16(FileHeader) + (EncU8(FileVersion) + EncProject(p))
  }

  /** The file starts with `0xDEE0`, low byte first, and version 1. */
  lemma SaveHeader(p: ProjectRecord)
    requires Savable(p)
    ensures |EncodeFile(p)| >= 3
    ensures EncodeFile(p)[0] == Byte(0xE0) && EncodeFile(p)[1] == Byte(0xDE) && EncodeFile(p)[2] == Byte(1)
  {
    var header := EncU16(FileHeader);
    var rest := EncU8(FileVersion) + EncProject(p);
    assert header == [Byte(0xE0), Byte(0xDE)];
    assert rest[0] == Byte(1);
    assert EncodeFile(p) == header + rest;
  }

  // ---------------------------------------------------------------------------
  // Decoders

  /** A list count, read as an `int`; a negative one throws when it is used as a capacity. */
  function DecCount(bits: SingleBits, s: seq<Unit>): (r: Option<Read<nat>>)
    ensures r.Some? ==> r.value.value <= MaxCount && |s| >= 4 && r.value.rest == s[4..]
    ensures r.Some? <==> DecI32(bits, s).Some? && DecI32(bits, s).value.value >= 0
    ensures r.Some? ==> r.value.value == DecI32(bits, s).value.value as int && r.value.rest == DecI32(bits, s).value.rest
  {
    var c :- DecI32(bits, s);
    if c.value < 0 then None else Some(Read(c.value as nat, c.rest))
  }

  /** `ReadSoundData`. */
  function DecSound(bits: SingleBits, s: seq<Unit>): Option<Read<PianoSoundValueData>> {
    var delay :- DecF32(s);
    var duration :- DecF32(delay.rest);
    var pitch :- DecI32(bits, duration.rest);
    var velocity :- DecI32(bits, pitch.rest);
    Some(Read(PianoSoundValueData(delay.value, duration.value, pitch.value, velocity.value), velocity.rest))
  }

  /** `ReadNoteData`: a note without links. */
  function DecNote(bits: SingleBits, s: seq<Unit>): Option<Read<NoteData>> {
    var noteType :- DecI32(bits, s);
    var count :- DecCount(bits, noteType.rest);
    var sounds :- DecMany(DecSound, bits, count.rest, count.value);
    var fields :- DecNoteFields(bits, sounds.rest);
    Some(Read(fields.value.(noteType := noteType.value, sounds := sounds.value), fields.rest))
  }

  /** The fields of `ReadNoteData` after the sounds, in a note with no type,
      no sounds and no links. */
  function DecNoteFields(bits: SingleBits, s: seq<Unit>): Option<Read<NoteData>> {
    var position :- DecF32(s);
    var size :- DecF32(position.rest);
    var time :- DecF32(size.rest);
    var shift :- DecF32(time.rest);
    var speed :- DecF32(shift.rest);
    var duration :- DecF32(speed.rest);
    var vibrate :- DecBool(duration.rest);
    var isSwipe :- DecBool(vibrate.rest);
    var warningType :- DecI32(bits, isSwipe.rest);
    var eventId :- DecStr(warningType.rest);
    var isSlide :- DecBool(eventId.rest);
    Some(Read(NoteData(0, [], position.value, size.value, time.value, shift.value, speed.value, duration.value,
                       vibrate.value, isSwipe.value, warningType.value, eventId.value, isSlide.value, None, None),
              isSlide.rest))
  }

  /** `ReadSpeedLineData`. */
  function DecLine(bits: SingleBits, s: seq<Unit>): Option<Read<SpeedLine>> {
    var speed :- DecF32(s);
    var startTime :- DecF32(speed.rest);
    var endTime :- DecF32(startTime.rest);
    var warningType :- DecI32(bits, endTime.rest);
    Some(Read(SpeedLine(speed.value, startTime.value, endTime.value, warningType.value), warningType.rest))
  }

  /** `ReadChartData`: note that the speed is read with `ReadInt32`. */
  function DecChartData(bits: SingleBits, s: seq<Unit>): Option<Read<ChartData>> {
    var speed :- DecI32(bits, s);
    var minVelocity :- DecI32(bits, speed.rest);
    var maxVelocity :- DecI32(bits, minVelocity.rest);
    var remapMinVelocity :- DecI32(bits, maxVelocity.rest);
    var remapMaxVelocity :- DecI32(bits, remapMinVelocity.rest);
    var lists :- DecChartDataLists(bits, remapMaxVelocity.rest);
    Some(Read(ChartData(speed.value as real, minVelocity.value, maxVelocity.value, remapMinVelocity.value,
                        remapMaxVelocity.value, lists.value.0, lists.value.1), lists.rest))
  }

  /** The end of `ReadChartData`: the notes, then the speed lines, each list after its count. */
  function DecChartDataLists(bits: SingleBits, s: seq<Unit>): Option<Read<(seq<NoteData>, seq<SpeedLine>)>> {
    var noteCount :- DecCount(bits, s);
    var notes :- DecMany(DecNote, bits, noteCount.rest, noteCount.value);
    var lineCount :- DecCount(bits, notes.rest);
    var lines :- DecMany(DecLine, bits, lineCount.rest, lineCount.value);
    Some(Read((notes.value, lines.value), lines.rest))
  }

  /** `ReadChart`. */
  function DecChart(bits: SingleBits, s: seq<Unit>): Option<Read<ChartRecord>> {
    var difficulty :- DecI32(bits, s);
    var level :- DecStr(difficulty.rest);
    var chartData :- DecChartData(bits, level.rest);
    Some(Read(ChartRecord(difficulty.value, level.value, chartData.value), chartData.rest))
  }

  function DecTempo(bits: SingleBits, s: seq<Unit>): Option<Read<Tempo>> {
    var bpm :- DecF32(s);
    var startTime :- DecF32(bpm.rest);
    Some(Read(Tempo(bpm.value, startTime.value), startTime.rest))
  }

  /** The audio section, by the branch the flag read before it selects; the
      field of the other branch keeps its default. */
  function DecAudio(bits: SingleBits, s: seq<Unit>, saveAsRefPath: bool): Option<Read<(string, seq<byte>)>> {
    if saveAsRefPath then
      var path :- DecStr(s);
      Some(Read((path.value, []), path.rest))
    else
      var length :- DecI32(bits, s);
      var audio :- DecBytes(length.rest, length.value);
      Some(Read(("", audio.value), audio.rest))
  }

  /** `ReadProject`. */
  function DecProject(bits: SingleBits, s: seq<Unit>): Option<Read<ProjectRecord>> {
    var musicName :- DecStr(s);
    var composer :- DecStr(musicName.rest);
    var chartDesigner :- DecStr(composer.rest);
    var saveAsRefPath :- DecBool(chartDesigner.rest);
    var audio :- DecAudio(bits, saveAsRefPath.rest, saveAsRefPath.value);
    var lists :- DecProjectLists(bits, audio.rest);
    Some(Read(ProjectRecord(musicName.value, composer.value, chartDesigner.value, saveAsRefPath.value,
                            audio.value.0, audio.value.1, lists.value.0, lists.value.1), lists.rest))
  }

  /** The end of `ReadProject`: the charts, then the tempos, each list after its count. */
  function DecProjectLists(bits: SingleBits, s: seq<Unit>): Option<Read<(seq<ChartRecord>, seq<Tempo>)>> {
    var chartCount :- DecCount(bits, s);
    var charts :- DecMany(DecChart, bits, chartCount.rest, chartCount.value);
    var tempoCount :- DecCount(bits, charts.rest);
    var tempos :- DecMany(DecTempo, bits, tempoCount.rest, tempoCount.value);
    Some(Read((charts.value, tempos.value), tempos.rest))
  }

  /** `Load` of a `.dnt` file: a wrong header or version is not a project;
      running out of data, or a negative count, throws. */
  function DecodeFile(bits: SingleBits, data: seq<Unit>): (r: LoadResult)
    ensures DecU16(data).Some? && DecU16(data).value.value != FileHeader ==> r == NotAProject
    ensures (|data| >= 2 && DecU16(data) == Some(Read(FileHeader, data[2..])) &&
             DecU8(data[2..]).Some? && DecU8(data[2..]).value.value != FileVersion) ==> r == NotAProject
    ensures r.Loaded? ==> |data| >= 3 && DecU16(data) == Some(Read(FileHeader, data[2..])) &&
                          DecU8(data[2..]) == Some(Read(FileVersion, data[3..]))
  {
    match DecU16(data)
    case None => Threw
    case Some(header) =>
      if header.value != FileHeader then NotAProject
      else match DecU8(header.rest)
        case None => Threw
        case Some(version) =>
          if version.value != FileVersion then NotAProject
          else match DecProject(bits, version.rest)
            case None => Threw
            case Some(project) => Loaded(project.value)
  }

  // ---------------------------------------------------------------------------
  // What a saved project loads back as

  /** A loaded note: links are neither written nor read. */
  function SavedNote(n: NoteData): NoteData {
    n.(prevLink := None, nextLink := None)
  }

  function SavedNotes(ns: seq<NoteData>): (r: seq<NoteData>)
    ensures |r| == |ns| && forall i :: 0 <= i < |ns| ==> r[i] == SavedNote(ns[i])
  {
    if ns == [] then [] else [SavedNote(ns[0])] + SavedNotes(ns[1..])
  }

  /** A loaded chart data: the speed is the integer that the float's bit pattern reads as. */
  function SavedChartData(bits: SingleBits, c: ChartData): ChartData {
    c.(speed := bits(c.speed) as real, notes := SavedNotes(c.notes))
  }

  function SavedChart(bits: SingleBits, c: ChartRecord): ChartRecord {
    c.(data := SavedChartData(bits, c.data))
  }

  function SavedCharts(bits: SingleBits, cs: seq<ChartRecord>): (r: seq<ChartRecord>)
    ensures |r| == |cs| && forall i :: 0 <= i < |cs| ==> r[i] == SavedChart(bits, cs[i])
  {
    if cs == [] then [] else [SavedChart(bits, cs[0])] + SavedCharts(bits, cs[1..])
  }

  /** A loaded project: only the audio field of the chosen branch is read back. */
  function SavedProject(bits: SingleBits, p: ProjectRecord): ProjectRecord {
    p.(audioFileRelativePath := if p.saveAsRefPath then p.audioFileRelativePath else "",
       audioData := if p.saveAsRefPath then [] else p.audioData,
       charts := SavedCharts(bits, p.charts))
  }

  // ---------------------------------------------------------------------------
  // Each reader reads back what its writer wrote, leaving what follows

  lemma CountRoundTrip(bits: SingleBits, n: nat, rest: seq<Unit>)
    requires n <= MaxCount
    ensures DecCount(bits, EncCount(n) + rest) == Some(Read(n, rest))
  {
    I32RoundTrip(bits, n as int32, rest);
  }

  /** `ReadSoundData` reads back what `WriteSoundData` wrote, field for field. */
  lemma SoundRoundTrip(bits: SingleBits, s: PianoSoundValueData, rest: seq<Unit>)
    ensures DecSound(bits, EncSound(s) + rest) == Some(Read(s, rest))
  {
    var e2 := EncI32(s.pitch) + EncI32(s.velocity);
    var e1 := EncF32(s.duration) + e2;
    Assoc(EncF32(s.delay), e1, rest);
    F32RoundTrip(s.delay, e1 + rest);
    Assoc(EncF32(s.duration), e2, rest);
    F32RoundTrip(s.duration, e2 + rest);
    Assoc(EncI32(s.pitch), EncI32(s.velocity), rest);
    I32RoundTrip(bits, s.pitch, EncI32(s.velocity) + rest);
    I32RoundTrip(bits, s.velocity, rest);
  }

  lemma SoundsRoundTrip(bits: SingleBits, ss: seq<PianoSoundValueData>, rest: seq<Unit>)
    ensures DecMany(DecSound, bits, EncList(EncSound, ss) + rest, |ss|) == Some(Read(ss, rest))
  {
    forall i, r | 0 <= i < |ss|
      ensures DecSound(bits, EncSound(ss[i]) + r) == Some(Read(ss[i], r))
    {
      SoundRoundTrip(bits, ss[i], r);
    }
    ListRoundTrip(EncSound, DecSound, bits, ss, ss, rest);
  }

  lemma NoteFieldsRoundTrip(bits: SingleBits, n: NoteData, rest: seq<Unit>)
    ensures DecNoteFields(bits, EncNoteFields(n) + rest) ==
              Some(Read(n.(noteType := 0, sounds := [], prevLink := None, nextLink := None), rest))
  {
    var e10 := EncBool(n.isSlide);
    var e9 := EncStr(n.eventId) + e10;
    var e8 := EncI32(n.warningType) + e9;
    var e7 := EncBool(n.isSwipe) + e8;
    var e6 := EncBool(n.vibrate) + e7;
    var e5 := EncF32(n.duration) + e6;
    var e4 := EncF32(n.speed) + e5;
    var e3 := EncF32(n.shift) + e4;
    var e2 := EncF32(n.time) + e3;
    var e1 := EncF32(n.size) + e2;
    F32Front(n.position, e1, rest);
    F32Front(n.size, e2, rest);
    F32Front(n.time, e3, rest);
    F32Front(n.shift, e4, rest);
    F32Front(n.speed, e5, rest);
    F32Front(n.duration, e6, rest);
    BoolFront(n.vibrate, e7, rest);
    BoolFront(n.isSwipe, e8, rest);
    I32Front(bits, n.warningType, e9, rest);
    StrFront(n.eventId, e10, rest);
    BoolRoundTrip(n.isSlide, rest);
  }

  /** `ReadNoteData` reads back what `WriteNoteData` wrote, except the links. */
  lemma NoteRoundTrip(bits: SingleBits, n: NoteData, rest: seq<Unit>)
    requires NoteSavable(n)
    ensures DecNote(bits, EncNote(n) + rest) == Some(Read(SavedNote(n), rest))
  {
    var sounds := EncList(EncSound, n.sounds);
    var e2 := sounds + EncNoteFields(n);
    var e1 := EncCount(|n.sounds|) + e2;
    Assoc(EncI32(n.noteType), e1, rest);
    I32RoundTrip(bits, n.noteType, e1 + rest);
    Assoc(EncCount(|n.sounds|), e2, rest);
    CountRoundTrip(bits, |n.sounds|, e2 + rest);
    Assoc(sounds, EncNoteFields(n), rest);
    SoundsRoundTrip(bits, n.sounds, EncNoteFields(n) + rest);
    NoteFieldsRoundTrip(bits, n, rest);
  }

  lemma NotesRoundTrip(bits: SingleBits, ns: seq<NoteData>, rest: seq<Unit>)
    requires forall i :: 0 <= i < |ns| ==> NoteSavable(ns[i])
    ensures DecMany(DecNote, bits, EncList(EncNote, ns) + rest, |ns|) == Some(Read(SavedNotes(ns), rest))
  {
    forall i, r | 0 <= i < |ns|
      ensures DecNote(bits, EncNote(ns[i]) + r) == Some(Read(SavedNotes(ns)[i], r))
    {
      NoteRoundTrip(bits, ns[i], r);
    }
    ListRoundTrip(EncNote, DecNote, bits, ns, SavedNotes(ns), rest);
  }

  /** `ReadSpeedLineData` reads back what `WriteSpeedLineData` wrote, field for field. */
  lemma LineRoundTrip(bits: SingleBits, l: SpeedLine, rest: seq<Unit>)
    ensures DecLine(bits, EncLine(l) + rest) == Some(Read(l, rest))
  {
    var e2 := EncF32(l.endTime) + EncI32(l.warningType);
    var e1 := EncF32(l.startTime) + e2;
    Assoc(EncF32(l.speed), e1, rest);
    F32RoundTrip(l.speed, e1 + rest);
    Assoc(EncF32(l.startTime), e2, rest);
    F32RoundTrip(l.startTime, e2 + rest);
    Assoc(EncF32(l.endTime), EncI32(l.warningType), rest);
    F32RoundTrip(l.endTime, EncI32(l.warningType) + rest);
    I32RoundTrip(bits, l.warningType, rest);
  }

  lemma LinesRoundTrip(bits: SingleBits, ls: seq<SpeedLine>, rest: seq<Unit>)
    ensures DecMany(DecLine, bits, EncList(EncLine, ls) + rest, |ls|) == Some(Read(ls, rest))
  {
    forall i, r | 0 <= i < |ls|
      ensures DecLine(bits, EncLine(ls[i]) + r) == Some(Read(ls[i], r))
    {
      LineRoundTrip(bits, ls[i], r);
    }
    ListRoundTrip(EncLine, DecLine, bits, ls, ls, rest);
  }

  /** The note and speed-line lists read back in order, the notes without links. */
  lemma ChartDataListsRoundTrip(bits: SingleBits, c: ChartData, rest: seq<Unit>)
    requires ChartDataSavable(c)
    ensures DecChartDataLists(bits, EncChartDataLists(c) + rest) == Some(Read((SavedNotes(c.notes), c.speedLines), rest))
  {
    var notes := EncList(EncNote, c.notes);
    var lines := EncList(EncLine, c.speedLines);
    var e2 := EncCount(|c.speedLines|) + lines;
    var e1 := notes + e2;
    Assoc(EncCount(|c.notes|), e1, rest);
    CountRoundTrip(bits, |c.notes|, e1 + rest);
    Assoc(notes, e2, rest);
    NotesRoundTrip(bits, c.notes, e2 + rest);
    Assoc(EncCount(|c.speedLines|), lines, rest);
    CountRoundTrip(bits, |c.speedLines|, lines + rest);
    LinesRoundTrip(bits, c.speedLines, rest);
  }

  /** `ReadChartData` reads back what `WriteChartData` wrote, except that the
      speed, written as a float and read with `ReadInt32`, comes back as the
      float's bit pattern, and the notes lose their links. */
  lemma ChartDataRoundTrip(bits: SingleBits, c: ChartData, rest: seq<Unit>)
    requires ChartDataSavable(c)
    ensures DecChartData(bits, EncChartData(c) + rest) == Some(Read(SavedChartData(bits, c), rest))
  {
    var e5 := EncChartDataLists(c);
    var e4 := EncI32(c.remapMaxVelocity) + e5;
    var e3 := EncI32(c.remapMinVelocity) + e4;
    var e2 := EncI32(c.maxVelocity) + e3;
    var e1 := EncI32(c.minVelocity) + e2;
    Assoc(EncF32(c.speed), e1, rest);
    I32OfF32(bits, c.speed, e1 + rest);
    Assoc(EncI32(c.minVelocity), e2, rest);
    I32RoundTrip(bits, c.minVelocity, e2 + rest);
    Assoc(EncI32(c.maxVelocity), e3, rest);
    I32RoundTrip(bits, c.maxVelocity, e3 + rest);
    Assoc(EncI32(c.remapMinVelocity), e4, rest);
    I32RoundTrip(bits, c.remapMinVelocity, e4 + rest);
    Assoc(EncI32(c.remapMaxVelocity), e5, rest);
    I32RoundTrip(bits, c.remapMaxVelocity, e5 + rest);
    ChartDataListsRoundTrip(bits, c, rest);
  }

  lemma ChartRoundTrip(bits: SingleBits, c: ChartRecord, rest: seq<Unit>)
    requires ChartSavable(c)
    ensures DecChart(bits, EncChart(c) + rest) == Some(Read(SavedChart(bits, c), rest))
  {
    var e1 := EncStr(c.level) + EncChartData(c.data);
    Assoc(EncI32(c.difficulty), e1, rest);
    I32RoundTrip(bits, c.difficulty, e1 + rest);
    Assoc(EncStr(c.level), EncChartData(c.data), rest);
    StrRoundTrip(c.level, EncChartData(c.data) + rest);
    ChartDataRoundTrip(bits, c.data, rest);
  }

  lemma ChartsRoundTrip(bits: SingleBits, cs: seq<ChartRecord>, rest: seq<Unit>)
    requires forall i :: 0 <= i < |cs| ==> ChartSavable(cs[i])
    ensures DecMany(DecChart, bits, EncList(EncChart, cs) + rest, |cs|) == Some(Read(SavedCharts(bits, cs), rest))
  {
    forall i, r | 0 <= i < |cs|
      ensures DecChart(bits, EncChart(cs[i]) + r) == Some(Read(SavedCharts(bits, cs)[i], r))
    {
      ChartRoundTrip(bits, cs[i], r);
    }
    ListRoundTrip(EncChart, DecChart, bits, cs, SavedCharts(bits, cs), rest);
  }

  lemma TempoRoundTrip(bits: SingleBits, t: Tempo, rest: seq<Unit>)
    ensures DecTempo(bits, EncTempo(t) + rest) == Some(Read(t, rest))
  {
    Assoc(EncF32(t.bpm), EncF32(t.startTime), rest);
    F32RoundTrip(t.bpm, EncF32(t.startTime) + rest);
    F32RoundTrip(t.startTime, rest);
  }

  lemma TemposRoundTrip(bits: SingleBits, ts: seq<Tempo>, rest: seq<Unit>)
    ensures DecMany(DecTempo, bits, EncList(EncTempo, ts) + rest, |ts|) == Some(Read(ts, rest))
  {
    forall i, r | 0 <= i < |ts|
      ensures DecTempo(bits, EncTempo(ts[i]) + r) == Some(Read(ts[i], r))
    {
      TempoRoundTrip(bits, ts[i], r);
    }
    ListRoundTrip(EncTempo, DecTempo, bits, ts, ts, rest);
  }

  /** The reader takes the audio branch the writer took: a path, or exactly the written bytes. */
  lemma AudioRoundTrip(bits: SingleBits, p: ProjectRecord, rest: seq<Unit>)
    requires |p.audioData| <= MaxCount
    ensures DecAudio(bits, EncAudio(p) + rest, p.saveAsRefPath) ==
              Some(Read(if p.saveAsRefPath then (p.audioFileRelativePath, []) else ("", p.audioData), rest))
  {
    if p.saveAsRefPath {
      StrRoundTrip(p.audioFileRelativePath, rest);
    } else {
      Assoc(EncCount(|p.audioData|), EncBytes(p.audioData), rest);
      I32RoundTrip(bits, |p.audioData| as int32, EncBytes(p.audioData) + rest);
      BytesRoundTrip(p.audioData, rest);
    }
  }

  /** The chart and tempo lists read back in order, the charts as saved. */
  lemma ProjectListsRoundTrip(bits: SingleBits, p: ProjectRecord, rest: seq<Unit>)
    requires Savable(p)
    ensures DecProjectLists(bits, EncProjectLists(p) + rest) == Some(Read((SavedCharts(bits, p.charts), p.tempos), rest))
  {
    var charts := EncList(EncChart, p.charts);
    var tempos := EncList(EncTempo, p.tempos);
    var e8 := EncCount(|p.tempos|) + tempos;
    var e7 := charts + e8;
    Assoc(EncCount(|p.charts|), e7, rest);
    CountRoundTrip(bits, |p.charts|, e7 + rest);
    Assoc(charts, e8, rest);
    ChartsRoundTrip(bits, p.charts, e8 + rest);
    Assoc(EncCount(|p.tempos|), tempos, rest);
    CountRoundTrip(bits, |p.tempos|, tempos + rest);
    TemposRoundTrip(bits, p.tempos, rest);
  }

  lemma ProjectRoundTrip(bits: SingleBits, p: ProjectRecord, rest: seq<Unit>)
    requires Savable(p)
    ensures DecProject(bits, EncProject(p) + rest) == Some(Read(SavedProject(bits, p), rest))
  {
    var e6 := EncProjectLists(p);
    var e5 := EncAudio(p) + e6;
    var e4 := EncBool(p.saveAsRefPath) + e5;
    var e3 := EncStr(p.chartDesigner) + e4;
    var e2 := EncStr(p.composer) + e3;
    Assoc(EncStr(p.musicName), e2, rest);
    StrRoundTrip(p.musicName, e2 + rest);
    Assoc(EncStr(p.composer), e3, rest);
    StrRoundTrip(p.composer, e3 + rest);
    Assoc(EncStr(p.chartDesigner), e4, rest);
    StrRoundTrip(p.chartDesigner, e4 + rest);
    Assoc(EncBool(p.saveAsRefPath), e5, rest);
    BoolRoundTrip(p.saveAsRefPath, e5 + rest);
    Assoc(EncAudio(p), e6, rest);
    AudioRoundTrip(bits, p, e6 + rest);
    ProjectListsRoundTrip(bits, p, rest);
  }

  /** Loading a saved file yields the saved project: every field, list and
      record in order, except the note links, the unused audio field and each
      chart's speed, which comes back as its float's bit pattern. */
  lemma LoadOfSave(bits: SingleBits, p: ProjectRecord)
    requires Savable(p)
    ensures DecodeFile(bits, EncodeFile(p)) == Loaded(SavedProject(bits, p))
  {
    U16RoundTrip(FileHeader, EncU8(FileVersion) + EncProject(p));
    U8RoundTrip(FileVersion, EncProject(p));
    ProjectRoundTrip(bits, p, []);
    assert EncProject(p) + [] == EncProject(p);
  }

  /** `File.OpenWrite` does not truncate: saving over a longer file leaves
      the old file's tail after the new contents. The load ignores it and
      still yields the saved project. */
  lemma LoadOfSaveOverStale(bits: SingleBits, p: ProjectRecord, stale: seq<Unit>)
    requires Savable(p)
    ensures DecodeFile(bits, EncodeFile(p) + stale) == Loaded(SavedProject(bits, p))
  {
    Assoc(EncU16(FileHeader), EncU8(FileVersion) + EncProject(p), stale);
    U16RoundTrip(FileHeader, EncU8(FileVersion) + EncProject(p) + stale);
    Assoc(EncU8(FileVersion), EncProject(p), stale);
    U8RoundTrip(FileVersion, EncProject(p) + stale);
    ProjectRoundTrip(bits, p, stale);
  }

  /** The chart speed is written as a float and read back with `ReadInt32`:
      each loaded chart's speed is its saved float's bit pattern. */
  lemma LoadedSpeed(bits: SingleBits, p: ProjectRecord, k: nat)
    requires Savable(p) && k < |p.charts|
    ensures DecodeFile(bits, EncodeFile(p)).Loaded?
    ensures |DecodeFile(bits, EncodeFile(p)).project.charts| == |p.charts|
    ensures DecodeFile(bits, EncodeFile(p)).project.charts[k].data.speed == bits(p.charts[k].data.speed) as real
  {
    LoadOfSave(bits, p);
  }

  /** So a chart whose speed is not its own bit pattern (1.0, say, whose
      pattern is 0x3F800000) does not load back as it was saved. */
  lemma SpeedNotPreserved(bits: SingleBits, p: ProjectRecord, k: nat)
    requires Savable(p) && k < |p.charts|
    requires bits(p.charts[k].data.speed) as real != p.charts[k].data.speed
    ensures DecodeFile(bits, EncodeFile(p)) != Loaded(p)
  {
    LoadedSpeed(bits, p, k);
  }
}
