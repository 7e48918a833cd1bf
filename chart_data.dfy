/** The chart data a chart model is built from and saved back to, kept in
    its own module so that the file format does not depend on the model. */
module ChartDatas {
  import opened Common
  import opened NoteDatas

  /** A speed line of a chart: speed, start and end time, warning type. */
  datatype SpeedLine = SpeedLine(speed: real, startTime: real, endTime: real, warningType: int32)

  /** The serialized content of a chart. */
  datatype ChartData = ChartData(
    speed: real,
    minVelocity: int32,
    maxVelocity: int32,
    remapMinVelocity: int32,
    remapMaxVelocity: int32,
    notes: seq<NoteData>,
    speedLines: seq<SpeedLine>)
}
