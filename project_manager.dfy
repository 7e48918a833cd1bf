/** `ProjectManager`'s `Save` and `Load`: the same file format as `ProjectIO`,
    written through a `BinaryWriter` and read through a `BinaryReader` one
    value at a time. Every writer method appends exactly its record's
    encoding; every reader method reads exactly what its record's decoder
    reads, and fails (an exception in the source) exactly when it fails. */
module ProjectManager {
  import opened Common
  import opened BinaryStreams
  import opened PianoSounds
  import opened NoteDatas
  import opened ChartDatas
  import opened ProjectIO

  // ---------------------------------------------------------------------------
  // Writing

  method WriteSoundData(writer: BinaryWriter, sound: PianoSoundValueData)
    modifies writer
    ensures writer.written == old(writer.written) + EncSound(sound)
  {
    ghost var f3 := EncI32(sound.pitch) + EncI32(sound.velocity);
    ghost var f2 := EncF32(sound.duration) + f3;
    Assoc(writer.written, EncF32(sound.delay), f2);
    writer.WriteF32(sound.delay);
    Assoc(writer.written, EncF32(sound.duration), f3);
    writer.WriteF32(sound.duration);
    Assoc(writer.written, EncI32(sound.pitch), EncI32(sound.velocity));
    writer.WriteI32(sound.pitch);
    writer.WriteI32(sound.velocity);
  }

  /** The `foreach` over the sounds in `WriteNoteData`. */
  method WriteSounds(writer: BinaryWriter, sounds: seq<PianoSoundValueData>)
    modifies writer
    ensures writer.written == old(writer.written) + EncList(EncSound, sounds)
  {
    ghost var start := writer.written;
    for i := 0 to |sounds|
      invariant writer.written == start + EncList(EncSound, sounds[..i])
    {
      EncListPrefix(EncSound, sounds, i, start);
      WriteSoundData(writer, sounds[i]);
    }
    assert sounds[..|sounds|] == sounds;
  }

  method WriteNoteData(writer: BinaryWriter, note: NoteData)
    requires NoteSavable(note)
    modifies writer
    ensures writer.written == old(writer.written) + EncNote(note)
  {
    ghost var fields := EncNoteFields(note);
    ghost var sounds := EncList(EncSound, note.sounds) + fields;
    ghost var count := EncCount(|note.sounds|) + sounds;
    Assoc(writer.written, EncI32(note.noteType), count);
    writer.WriteI32(note.noteType);
    Assoc(writer.written, EncCount(|note.sounds|), sounds);
    writer.WriteI32(|note.sounds| as int32);
    Assoc(writer.written, EncList(EncSound, note.sounds), fields);
    WriteSounds(writer, note.sounds);
    WriteNoteFields(writer, note);
  }

  /** The fields `WriteNoteData` writes after the sounds. */
  method WriteNoteFields(writer: BinaryWriter, note: NoteData)
    modifies writer
    ensures writer.written == old(writer.written) + EncNoteFields(note)
  {
    ghost var f11 := EncBool(note.isSlide);
    ghost var f10 := EncStr(note.eventId) + f11;
    ghost var f9 := EncI32(note.warningType) + f10;
    ghost var f8 := EncBool(note.isSwipe) + f9;
    ghost var f7 := EncBool(note.vibrate) + f8;
    ghost var f6 := EncF32(note.duration) + f7;
    ghost var f5 := EncF32(note.speed) + f6;
    ghost var f4 := EncF32(note.shift) + f5;
    ghost var f3 := EncF32(note.time) + f4;
    ghost var f2 := EncF32(note.size) + f3;
    Assoc(writer.written, EncF32(note.position), f2);
    writer.WriteF32(note.position);
    Assoc(writer.written, EncF32(note.size), f3);
    writer.WriteF32(note.size);
    Assoc(writer.written, EncF32(note.time), f4);
    writer.WriteF32(note.time);
    Assoc(writer.written, EncF32(note.shift), f5);
    writer.WriteF32(note.shift);
    Assoc(writer.written, EncF32(note.speed), f6);
    writer.WriteF32(note.speed);
    Assoc(writer.written, EncF32(note.duration), f7);
    writer.WriteF32(note.duration);
    Assoc(writer.written, EncBool(note.vibrate), f8);
    writer.WriteBool(note.vibrate);
    Assoc(writer.written, EncBool(note.isSwipe), f9);
    writer.WriteBool(note.isSwipe);
    Assoc(writer.written, EncI32(note.warningType), f10);
    writer.WriteI32(note.warningType);
    Assoc(writer.written, EncStr(note.eventId), f11);
    writer.WriteStr(note.eventId);
    writer.WriteBool(note.isSlide);
  }

  /** The `foreach` over the notes in `WriteChartData`. */
  method WriteNotes(writer: BinaryWriter, notes: seq<NoteData>)
    requires forall i :: 0 <= i < |notes| ==> NoteSavable(notes[i])
    modifies writer
    ensures writer.written == old(writer.written) + EncList(EncNote, notes)
  {
    ghost var start := writer.written;
    for i := 0 to |notes|
      invariant writer.written == start + EncList(EncNote, notes[..i])
    {
      EncListPrefix(EncNote, notes, i, start);
      WriteNoteData(writer, notes[i]);
    }
    assert notes[..|notes|] == notes;
  }

  method WriteSpeedLineData(writer: BinaryWriter, line: SpeedLine)
    modifies writer
    ensures writer.written == old(writer.written) + EncLine(line)
  {
    ghost var f3 := EncF32(line.endTime) + EncI32(line.warningType);
    ghost var f2 := EncF32(line.startTime) + f3;
    Assoc(writer.written, EncF32(line.speed), f2);
    writer.WriteF32(line.speed);
    Assoc(writer.written, EncF32(line.startTime), f3);
    writer.WriteF32(line.startTime);
    Assoc(writer.written, EncF32(line.endTime), EncI32(line.warningType));
    writer.WriteF32(line.endTime);
    writer.WriteI32(line.warningType);
  }

  /** The `foreach` over the speed lines in `WriteChartData`. */
  method WriteSpeedLines(writer: BinaryWriter, lines: seq<SpeedLine>)
    modifies writer
    ensures writer.written == old(writer.written) + EncList(EncLine, lines)
  {
    ghost var start := writer.written;
    for i := 0 to |lines|
      invariant writer.written == start + EncList(EncLine, lines[..i])
    {
      EncListPrefix(EncLine, lines, i, start);
      WriteSpeedLineData(writer, lines[i]);
    }
    assert lines[..|lines|] == lines;
  }

  method WriteChartData(writer: BinaryWriter, chart: ChartData)
    requires ChartDataSavable(chart)
    modifies writer
    ensures writer.written == old(writer.written) + EncChartData(chart)
  {
    ghost var f5 := EncChartDataLists(chart);
    ghost var f4 := EncI32(chart.remapMaxVelocity) + f5;
    ghost var f3 := EncI32(chart.remapMinVelocity) + f4;
    ghost var f2 := EncI32(chart.maxVelocity) + f3;
    ghost var f1 := EncI32(chart.minVelocity) + f2;
    Assoc(writer.written, EncF32(chart.speed), f1);
    writer.WriteF32(chart.speed);
    Assoc(writer.written, EncI32(chart.minVelocity), f2);
    writer.WriteI32(chart.minVelocity);
    Assoc(writer.written, EncI32(chart.maxVelocity), f3);
    writer.WriteI32(chart.maxVelocity);
    Assoc(writer.written, EncI32(chart.remapMinVelocity), f4);
    writer.WriteI32(chart.remapMinVelocity);
    Assoc(writer.written, EncI32(chart.remapMaxVelocity), f5);
    writer.WriteI32(chart.remapMaxVelocity);
    WriteChartDataLists(writer, chart);
  }

  /** The end of `WriteChartData`: the note count and notes, the line count and lines. */
  method WriteChartDataLists(writer: BinaryWriter, chart: ChartData)
    requires ChartDataSavable(chart)
    modifies writer
    ensures writer.written == old(writer.written) + EncChartDataLists(chart)
  {
    ghost var f3 := EncList(EncLine, chart.speedLines);
    ghost var f2 := EncCount(|chart.speedLines|) + f3;
    ghost var f1 := EncList(EncNote, chart.notes) + f2;
    Assoc(writer.written, EncCount(|chart.notes|), f1);
    writer.WriteI32(|chart.notes| as int32);
    Assoc(writer.written, EncList(EncNote, chart.notes), f2);
    WriteNotes(writer, chart.notes);
    Assoc(writer.written, EncCount(|chart.speedLines|), f3);
    writer.WriteI32(|chart.speedLines| as int32);
    WriteSpeedLines(writer, chart.speedLines);
  }

  method WriteChart(writer: BinaryWriter, chart: ChartRecord)
    requires ChartSavable(chart)
    modifies writer
    ensures writer.written == old(writer.written) + EncChart(chart)
  {
    Assoc(writer.written, EncI32(chart.difficulty), EncStr(chart.level) + EncChartData(chart.data));
    writer.WriteI32(chart.difficulty);
    Assoc(writer.written, EncStr(chart.level), EncChartData(chart.data));
    writer.WriteStr(chart.level);
    WriteChartData(writer, chart.data);
  }

  /** The `foreach` over the charts in `WriteProject`. */
  method WriteCharts(writer: BinaryWriter, charts: seq<ChartRecord>)
    requires forall i :: 0 <= i < |charts| ==> ChartSavable(charts[i])
    modifies writer
    ensures writer.written == old(writer.written) + EncList(EncChart, charts)
  {
    ghost var start := writer.written;
    for i := 0 to |charts|
      invariant writer.written == start + EncList(EncChart, charts[..i])
    {
      EncListPrefix(EncChart, charts, i, start);
      WriteChart(writer, charts[i]);
    }
    assert charts[..|charts|] == charts;
  }

  /** The `foreach` over the tempos in `WriteProject`: the bpm, then the start time. */
  method WriteTempos(writer: BinaryWriter, tempos: seq<Tempo>)
    modifies writer
    ensures writer.written == old(writer.written) + EncList(EncTempo, tempos)
  {
    ghost var start := writer.written;
    for i := 0 to |tempos|
      invariant writer.written == start + EncList(EncTempo, tempos[..i])
    {
      EncListPrefix(EncTempo, tempos, i, start);
      Assoc(writer.written, EncF32(tempos[i].bpm), EncF32(tempos[i].startTime));
      writer.WriteF32(tempos[i].bpm);
      writer.WriteF32(tempos[i].startTime);
    }
    assert tempos[..|tempos|] == tempos;
  }

  method WriteProject(writer: BinaryWriter, project: ProjectRecord)
    requires Savable(project)
    modifies writer
    ensures writer.written == old(writer.written) + EncProject(project)
  {
    ghost var f5 := EncAudio(project) + EncProjectLists(project);
    ghost var f4 := EncBool(project.saveAsRefPath) + f5;
    ghost var f3 := EncStr(project.chartDesigner) + f4;
    ghost var f2 := EncStr(project.composer) + f3;
    Assoc(writer.written, EncStr(project.musicName), f2);
    writer.WriteStr(project.musicName);
    Assoc(writer.written, EncStr(project.composer), f3);
    writer.WriteStr(project.composer);
    Assoc(writer.written, EncStr(project.chartDesigner), f4);
    writer.WriteStr(project.chartDesigner);
    Assoc(writer.written, EncBool(project.saveAsRefPath), f5);
    writer.WriteBool(project.saveAsRefPath);
    Assoc(writer.written, EncAudio(project), EncProjectLists(project));
    if project.saveAsRefPath {
      writer.WriteStr(project.audioFileRelativePath);
    } else {
      Assoc(writer.written, EncCount(|project.audioData|), EncBytes(project.audioData));
      writer.WriteI32(|project.audioData| as int32);
      writer.WriteBytes(project.audioData);
    }
    WriteProjectLists(writer, project);
  }

  /** The end of `WriteProject`: the chart count and charts, the tempo count and tempos. */
  method WriteProjectLists(writer: BinaryWriter, project: ProjectRecord)
    requires Savable(project)
    modifies writer
    ensures writer.written == old(writer.written) + EncProjectLists(project)
  {
    ghost var f3 := EncList(EncTempo, project.tempos);
    ghost var f2 := EncCount(|project.tempos|) + f3;
    ghost var f1 := EncList(EncChart, project.charts) + f2;
    Assoc(writer.written, EncCount(|project.charts|), f1);
    writer.WriteI32(|project.charts| as int32);
    Assoc(writer.written, EncList(EncChart, project.charts), f2);
    WriteCharts(writer, project.charts);
    Assoc(writer.written, EncCount(|project.tempos|), f3);
    writer.WriteI32(|project.tempos| as int32);
    WriteTempos(writer, project.tempos);
  }

  /** `Save`: the header `0xDEE0`, the version byte 1, then the project. */
  method Save(project: ProjectRecord) returns (file: seq<Unit>)
    requires Savable(project)
    ensures file == EncodeFile(project)
  {
    var writer := new BinaryWriter();
    writer.WriteU16(0xDEE0);
    Assoc(writer.written, EncU8(FileVersion), EncProject(project));
    writer.WriteU8(1);
    WriteProject(writer, project);
    file := writer.written;
  }

  // ---------------------------------------------------------------------------
  // Reading

  // The reading loops below keep the items read so far as the decoding of
  // that many items from where the loop started; these lemmas, one pair per
  // item type, move that by one item.

  lemma SoundsSnoc(bits: SingleBits, s: seq<Unit>, i: nat, xs: seq<PianoSoundValueData>, mid: seq<Unit>, x: PianoSoundValueData, after: seq<Unit>)
    requires DecMany(DecSound, bits, s, i) == Some(Read(xs, mid)) && DecSound(bits, mid) == Some(Read(x, after))
    ensures DecMany(DecSound, bits, s, i + 1) == Some(Read(xs + [x], after))
  {
    DecManySnoc(DecSound, bits, s, i, xs, mid, x, after);
  }

  lemma SoundsStuck(bits: SingleBits, s: seq<Unit>, i: nat, count: nat, xs: seq<PianoSoundValueData>, mid: seq<Unit>)
    requires i < count && DecMany(DecSound, bits, s, i) == Some(Read(xs, mid)) && DecSound(bits, mid).None?
    ensures DecMany(DecSound, bits, s, count) == None
  {
    DecManyStuck(DecSound, bits, s, i, count, xs, mid);
  }

  lemma NotesSnoc(bits: SingleBits, s: seq<Unit>, i: nat, xs: seq<NoteData>, mid: seq<Unit>, x: NoteData, after: seq<Unit>)
    requires DecMany(DecNote, bits, s, i) == Some(Read(xs, mid)) && DecNote(bits, mid) == Some(Read(x, after))
    ensures DecMany(DecNote, bits, s, i + 1) == Some(Read(xs + [x], after))
  {
    DecManySnoc(DecNote, bits, s, i, xs, mid, x, after);
  }

  lemma NotesStuck(bits: SingleBits, s: seq<Unit>, i: nat, count: nat, xs: seq<NoteData>, mid: seq<Unit>)
    requires i < count && DecMany(DecNote, bits, s, i) == Some(Read(xs, mid)) && DecNote(bits, mid).None?
    ensures DecMany(DecNote, bits, s, count) == None
  {
    DecManyStuck(DecNote, bits, s, i, count, xs, mid);
  }

  lemma LinesSnoc(bits: SingleBits, s: seq<Unit>, i: nat, xs: seq<SpeedLine>, mid: seq<Unit>, x: SpeedLine, after: seq<Unit>)
    requires DecMany(DecLine, bits, s, i) == Some(Read(xs, mid)) && DecLine(bits, mid) == Some(Read(x, after))
    ensures DecMany(DecLine, bits, s, i + 1) == Some(Read(xs + [x], after))
  {
    DecManySnoc(DecLine, bits, s, i, xs, mid, x, after);
  }

  lemma LinesStuck(bits: SingleBits, s: seq<Unit>, i: nat, count: nat, xs: seq<SpeedLine>, mid: seq<Unit>)
    requires i < count && DecMany(DecLine, bits, s, i) == Some(Read(xs, mid)) && DecLine(bits, mid).None?
    ensures DecMany(DecLine, bits, s, count) == None
  {
    DecManyStuck(DecLine, bits, s, i, count, xs, mid);
  }

  lemma ChartsSnoc(bits: SingleBits, s: seq<Unit>, i: nat, xs: seq<ChartRecord>, mid: seq<Unit>, x: ChartRecord, after: seq<Unit>)
    requires DecMany(DecChart, bits, s, i) == Some(Read(xs, mid)) && DecChart(bits, mid) == Some(Read(x, after))
    ensures DecMany(DecChart, bits, s, i + 1) == Some(Read(xs + [x], after))
  {
    DecManySnoc(DecChart, bits, s, i, xs, mid, x, after);
  }

  lemma ChartsStuck(bits: SingleBits, s: seq<Unit>, i: nat, count: nat, xs: seq<ChartRecord>, mid: seq<Unit>)
    requires i < count && DecMany(DecChart, bits, s, i) == Some(Read(xs, mid)) && DecChart(bits, mid).None?
    ensures DecMany(DecChart, bits, s, count) == None
  {
    DecManyStuck(DecChart, bits, s, i, count, xs, mid);
  }

  lemma TemposSnoc(bits: SingleBits, s: seq<Unit>, i: nat, xs: seq<Tempo>, mid: seq<Unit>, x: Tempo, after: seq<Unit>)
    requires DecMany(DecTempo, bits, s, i) == Some(Read(xs, mid)) && DecTempo(bits, mid) == Some(Read(x, after))
    ensures DecMany(DecTempo, bits, s, i + 1) == Some(Read(xs + [x], after))
  {
    DecManySnoc(DecTempo, bits, s, i, xs, mid, x, after);
  }

  lemma TemposStuck(bits: SingleBits, s: seq<Unit>, i: nat, count: nat, xs: seq<Tempo>, mid: seq<Unit>)
    requires i < count && DecMany(DecTempo, bits, s, i) == Some(Read(xs, mid)) && DecTempo(bits, mid).None?
    ensures DecMany(DecTempo, bits, s, count) == None
  {
    DecManyStuck(DecTempo, bits, s, i, count, xs, mid);
  }

  /** A list count: `ReadInt32`, then the capacity it sets, which throws when negative. */
  method ReadCount(reader: BinaryReader) returns (r: Option<nat>)
    modifies reader
    ensures Outcome(r, reader.unread) == DecCount(reader.bits, old(reader.unread))
  {
    var count := reader.ReadI32();
    if count.None? || count.value < 0 {
      return None;
    }
    r := Some(count.value as nat);
  }

  method ReadSoundData(reader: BinaryReader) returns (r: Option<PianoSoundValueData>)
    modifies reader
    ensures Outcome(r, reader.unread) == DecSound(reader.bits, old(reader.unread))
  {
    var delay := reader.ReadF32();
    if delay.None? { return None; }
    var duration := reader.ReadF32();
    if duration.None? { return None; }
    var pitch := reader.ReadI32();
    if pitch.None? { return None; }
    var velocity := reader.ReadI32();
    if velocity.None? { return None; }
    r := Some(PianoSoundValueData(delay.value, duration.value, pitch.value, velocity.value));
  }

  /** The loop over the sounds in `ReadNoteData`. */
  method ReadSounds(reader: BinaryReader, count: nat) returns (r: Option<seq<PianoSoundValueData>>)
    modifies reader
    ensures Outcome(r, reader.unread) == DecMany(DecSound, reader.bits, old(reader.unread), count)
  {
    ghost var start := reader.unread;
    var sounds := [];
    for i := 0 to count
      invariant DecMany(DecSound, reader.bits, start, i) == Some(Read(sounds, reader.unread))
    {
      ghost var before := reader.unread;
      var sound := ReadSoundData(reader);
      if sound.None? {
        SoundsStuck(reader.bits, start, i, count, sounds, before);
        return None;
      }
      SoundsSnoc(reader.bits, start, i, sounds, before, sound.value, reader.unread);
      sounds := sounds + [sound.value];
    }
    r := Some(sounds);
  }

  method ReadNoteData(reader: BinaryReader) returns (r: Option<NoteData>)
    modifies reader
    ensures Outcome(r, reader.unread) == DecNote(reader.bits, old(reader.unread))
  {
    var noteType := reader.ReadI32();
    if noteType.None? { return None; }
    var count := ReadCount(reader);
    if count.None? { return None; }
    var sounds := ReadSounds(reader, count.value);
    if sounds.None? { return None; }
    var fields := ReadNoteFields(reader);
    if fields.None? { return None; }
    r := Some(fields.value.(noteType := noteType.value, sounds := sounds.value));
  }

  /** The fields `ReadNoteData` reads after the sounds, in a note with no
      type, no sounds and no links. */
  method ReadNoteFields(reader: BinaryReader) returns (r: Option<NoteData>)
    modifies reader
    ensures Outcome(r, reader.unread) == DecNoteFields(reader.bits, old(reader.unread))
  {
    var position := reader.ReadF32();
    if position.None? { return None; }
    var size := reader.ReadF32();
    if size.None? { return None; }
    var time := reader.ReadF32();
    if time.None? { return None; }
    var shift := reader.ReadF32();
    if shift.None? { return None; }
    var speed := reader.ReadF32();
    if speed.None? { return None; }
    var duration := reader.ReadF32();
    if duration.None? { return None; }
    var vibrate := reader.ReadBool();
    if vibrate.None? { return None; }
    var isSwipe := reader.ReadBool();
    if isSwipe.None? { return None; }
    var warningType := reader.ReadI32();
    if warningType.None? { return None; }
    var eventId := reader.ReadStr();
    if eventId.None? { return None; }
    var isSlide := reader.ReadBool();
    if isSlide.None? { return None; }
    r := Some(NoteData(0, [], position.value, size.value, time.value, shift.value, speed.value, duration.value,
                       vibrate.value, isSwipe.value, warningType.value, eventId.value, isSlide.value, None, None));
  }

  /** The loop over the notes in `ReadChartData`. */
  method ReadNotes(reader: BinaryReader, count: nat) returns (r: Option<seq<NoteData>>)
    modifies reader
    ensures Outcome(r, reader.unread) == DecMany(DecNote, reader.bits, old(reader.unread), count)
  {
    ghost var start := reader.unread;
    var notes := [];
    for i := 0 to count
      invariant DecMany(DecNote, reader.bits, start, i) == Some(Read(notes, reader.unread))
    {
      ghost var before := reader.unread;
      var note := ReadNoteData(reader);
      if note.None? {
        NotesStuck(reader.bits, start, i, count, notes, before);
        return None;
      }
      NotesSnoc(reader.bits, start, i, notes, before, note.value, reader.unread);
      notes := notes + [note.value];
    }
    r := Some(notes);
  }

  method ReadSpeedLineData(reader: BinaryReader) returns (r: Option<SpeedLine>)
    modifies reader
    ensures Outcome(r, reader.unread) == DecLine(reader.bits, old(reader.unread))
  {
    var speed := reader.ReadF32();
    if speed.None? { return None; }
    var startTime := reader.ReadF32();
    if startTime.None? { return None; }
    var endTime := reader.ReadF32();
    if endTime.None? { return None; }
    var warningType := reader.ReadI32();
    if warningType.None? { return None; }
    r := Some(SpeedLine(speed.value, startTime.value, endTime.value, warningType.value));
  }

  /** The loop over the speed lines in `ReadChartData`. */
  method ReadSpeedLines(reader: BinaryReader, count: nat) returns (r: Option<seq<SpeedLine>>)
    modifies reader
    ensures Outcome(r, reader.unread) == DecMany(DecLine, reader.bits, old(reader.unread), count)
  {
    ghost var start := reader.unread;
    var lines := [];
    for i := 0 to count
      invariant DecMany(DecLine, reader.bits, start, i) == Some(Read(lines, reader.unread))
    {
      ghost var before := reader.unread;
      var line := ReadSpeedLineData(reader);
      if line.None? {
        LinesStuck(reader.bits, start, i, count, lines, before);
        return None;
      }
      LinesSnoc(reader.bits, start, i, lines, before, line.value, reader.unread);
      lines := lines + [line.value];
    }
    r := Some(lines);
  }

  /** `ReadChartData`; the speed is read with `ReadInt32` and converted to a float. */
  method ReadChartData(reader: BinaryReader) returns (r: Option<ChartData>)
    modifies reader
    ensures Outcome(r, reader.unread) == DecChartData(reader.bits, old(reader.unread))
  {
    var speed := reader.ReadI32();
    if speed.None? { return None; }
    var minVelocity := reader.ReadI32();
    if minVelocity.None? { return None; }
    var maxVelocity := reader.ReadI32();
    if maxVelocity.None? { return None; }
    var remapMinVelocity := reader.ReadI32();
    if remapMinVelocity.None? { return None; }
    var remapMaxVelocity := reader.ReadI32();
    if remapMaxVelocity.None? { return None; }
    var lists := ReadChartDataLists(reader);
    if lists.None? { return None; }
    r := Some(ChartData(speed.value as real, minVelocity.value, maxVelocity.value, remapMinVelocity.value,
                        remapMaxVelocity.value, lists.value.0, lists.value.1));
  }

  /** The end of `ReadChartData`: the note count and notes, the line count and lines. */
  method ReadChartDataLists(reader: BinaryReader) returns (r: Option<(seq<NoteData>, seq<SpeedLine>)>)
    modifies reader
    ensures Outcome(r, reader.unread) == DecChartDataLists(reader.bits, old(reader.unread))
  {
    var noteCount := ReadCount(reader);
    if noteCount.None? { return None; }
    var notes := ReadNotes(reader, noteCount.value);
    if notes.None? { return None; }
    var lineCount := ReadCount(reader);
    if lineCount.None? { return None; }
    var lines := ReadSpeedLines(reader, lineCount.value);
    if lines.None? { return None; }
    r := Some((notes.value, lines.value));
  }

  method ReadChart(reader: BinaryReader) returns (r: Option<ChartRecord>)
    modifies reader
    ensures Outcome(r, reader.unread) == DecChart(reader.bits, old(reader.unread))
  {
    var difficulty := reader.ReadI32();
    if difficulty.None? { return None; }
    var level := reader.ReadStr();
    if level.None? { return None; }
    var data := ReadChartData(reader);
    if data.None? { return None; }
    r := Some(ChartRecord(difficulty.value, level.value, data.value));
  }

  /** The loop over the charts in `ReadProject`. */
  method ReadCharts(reader: BinaryReader, count: nat) returns (r: Option<seq<ChartRecord>>)
    modifies reader
    ensures Outcome(r, reader.unread) == DecMany(DecChart, reader.bits, old(reader.unread), count)
  {
    ghost var start := reader.unread;
    var charts := [];
    for i := 0 to count
      invariant DecMany(DecChart, reader.bits, start, i) == Some(Read(charts, reader.unread))
    {
      ghost var before := reader.unread;
      var chart := ReadChart(reader);
      if chart.None? {
        ChartsStuck(reader.bits, start, i, count, charts, before);
        return None;
      }
      ChartsSnoc(reader.bits, start, i, charts, before, chart.value, reader.unread);
      charts := charts + [chart.value];
    }
    r := Some(charts);
  }

  /** One tempo in the loop of `ReadProject`: the bpm, then the start time. */
  method ReadTempo(reader: BinaryReader) returns (r: Option<Tempo>)
    modifies reader
    ensures Outcome(r, reader.unread) == DecTempo(reader.bits, old(reader.unread))
  {
    var bpm := reader.ReadF32();
    if bpm.None? { return None; }
    var startTime := reader.ReadF32();
    if startTime.None? { return None; }
    r := Some(Tempo(bpm.value, startTime.value));
  }

  /** The loop over the tempos in `ReadProject`. */
  method ReadTempos(reader: BinaryReader, count: nat) returns (r: Option<seq<Tempo>>)
    modifies reader
    ensures Outcome(r, reader.unread) == DecMany(DecTempo, reader.bits, old(reader.unread), count)
  {
    ghost var start := reader.unread;
    var tempos := [];
    for i := 0 to count
      invariant DecMany(DecTempo, reader.bits, start, i) == Some(Read(tempos, reader.unread))
    {
      ghost var before := reader.unread;
      var tempo := ReadTempo(reader);
      if tempo.None? {
        TemposStuck(reader.bits, start, i, count, tempos, before);
        return None;
      }
      TemposSnoc(reader.bits, start, i, tempos, before, tempo.value, reader.unread);
      tempos := tempos + [tempo.value];
    }
    r := Some(tempos);
  }

  method ReadProject(reader: BinaryReader) returns (r: Option<ProjectRecord>)
    modifies reader
    ensures Outcome(r, reader.unread) == DecProject(reader.bits, old(reader.unread))
  {
    var musicName := reader.ReadStr();
    if musicName.None? { return None; }
    var composer := reader.ReadStr();
    if composer.None? { return None; }
    var chartDesigner := reader.ReadStr();
    if chartDesigner.None? { return None; }
    var saveAsRefPath := reader.ReadBool();
    if saveAsRefPath.None? { return None; }
    var audioFileRelativePath, audioData := "", [];
    if saveAsRefPath.value {
      var path := reader.ReadStr();
      if path.None? { return None; }
      audioFileRelativePath := path.value;
    } else {
      var length := reader.ReadI32();
      if length.None? { return None; }
      var bytes := reader.ReadBytes(length.value);
      if bytes.None? { return None; }
      audioData := bytes.value;
    }
    var lists := ReadProjectLists(reader);
    if lists.None? { return None; }
    r := Some(ProjectRecord(musicName.value, composer.value, chartDesigner.value, saveAsRefPath.value,
                            audioFileRelativePath, audioData, lists.value.0, lists.value.1));
  }

  /** The end of `ReadProject`: the chart count and charts, the tempo count and tempos. */
  method ReadProjectLists(reader: BinaryReader) returns (r: Option<(seq<ChartRecord>, seq<Tempo>)>)
    modifies reader
    ensures Outcome(r, reader.unread) == DecProjectLists(reader.bits, old(reader.unread))
  {
    var chartCount := ReadCount(reader);
    if chartCount.None? { return None; }
    var charts := ReadCharts(reader, chartCount.value);
    if charts.None? { return None; }
    var tempoCount := ReadCount(reader);
    if tempoCount.None? { return None; }
    var tempos := ReadTempos(reader, tempoCount.value);
    if tempos.None? { return None; }
    r := Some((charts.value, tempos.value));
  }

  /** `Load` of a `.dnt` file: `bits` is the layout of the file's float chunks. */
  method Load(file: seq<Unit>, bits: SingleBits) returns (res: LoadResult)
    ensures res == DecodeFile(bits, file)
  {
    var reader := new BinaryReader(file, bits);
    var header := reader.ReadU16();
    if header.None? { return Threw; }
    if header.value != 0xDEE0 { return NotAProject; }
    var version := reader.ReadU8();
    if version.None? { return Threw; }
    if version.value != 1 { return NotAProject; }
    var project := ReadProject(reader);
    if project.None? { return Threw; }
    res := Loaded(project.value);
  }

  /** Saving a project and loading the file back, through the writer and the
      reader: the project as saved, with the chart speeds as bit patterns. */
  method SaveThenLoad(project: ProjectRecord, bits: SingleBits) returns (res: LoadResult)
    requires Savable(project)
    ensures res == Loaded(SavedProject(bits, project))
  {
    var file := Save(project);
    res := Load(file, bits);
    LoadOfSave(bits, project);
  }
}
