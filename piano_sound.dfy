/** `PianoSoundData`, a sound a note plays (a mutable record of four fields),
    and `PianoSoundValueData`, its immutable value form. */
module PianoSounds {
  import opened Common

  /** `PianoSoundValueData`: delay, duration, pitch and velocity as a value. */
  datatype PianoSoundValueData = PianoSoundValueData(delay: real, duration: real, pitch: int32, velocity: int32)

  class PianoSoundData {
    var delay: real
    var duration: real
    var pitch: int32
    var velocity: int32

    /** The four-argument constructor stores its arguments as they are. */
    constructor (delay: real, duration: real, pitch: int32, velocity: int32)
      ensures this.delay == delay && this.duration == duration
      ensures this.pitch == pitch && this.velocity == velocity
    {
      this.delay := delay;
      this.duration := duration;
      this.pitch := pitch;
      this.velocity := velocity;
    }

    /** Construction from a value record yields that record's four fields. */
    constructor FromValues(data: PianoSoundValueData)
      ensures GetValues() == data
    {
      delay := data.delay;
      duration := data.duration;
      pitch := data.pitch;
      velocity := data.velocity;
    }

    /** `GetValues`: the current four fields as a value record. */
    function GetValues(): (v: PianoSoundValueData)
      reads this
      ensures v.delay == delay && v.duration == duration
      ensures v.pitch == pitch && v.velocity == velocity
    {
      PianoSoundValueData(delay, duration, pitch, velocity)
    }

    /** `Clone`: a distinct new object with the same four fields. */
    method Clone() returns (c: PianoSoundData)
      ensures fresh(c) && c != this
      ensures c.GetValues() == GetValues()
    {
      c := new PianoSoundData(delay, duration, pitch, velocity);
    }

    /** `CopyTo`: overwrites the other object's four fields with this one's. */
    method CopyTo(other: PianoSoundData)
      modifies other
      ensures other.GetValues() == old(GetValues())
      ensures GetValues() == old(GetValues())
    {
      other.delay := delay;
      other.duration := duration;
      other.pitch := pitch;
      other.velocity := velocity;
    }

    /** `SetValues`: overwrites the four fields with those of a value record. */
    method SetValues(values: PianoSoundValueData)
      modifies this
      ensures GetValues() == values
    {
      delay := values.delay;
      duration := values.duration;
      pitch := values.pitch;
      velocity := values.velocity;
    }
  }

  /** Writing back the values just read changes nothing. */
  method SetValuesOfOwnValues(sound: PianoSoundData)
    modifies sound
    ensures sound.GetValues() == old(sound.GetValues())
  {
    var v := sound.GetValues();
    sound.SetValues(v);
  }

  /** A value record survives a round trip through an object unchanged. */
  method ValuesRoundTrip(values: PianoSoundValueData) returns (back: PianoSoundValueData)
    ensures back == values
  {
    var sound := new PianoSoundData.FromValues(values);
    back := sound.GetValues();
  }
}
