/** Fixed-width integers and the enumerations shared by the PulseAudio capture backend. */
module PulseTypes {

  /** C's unsigned integer types, as plain integers in range. */
  type uint8 = x: int | 0 <= x < 0x100
  type uint32 = x: int | 0 <= x < 0x1_0000_0000
  type uint64 = x: int | 0 <= x < 0x1_0000_0000_0000_0000

  /** 2^64: unsigned 64-bit arithmetic (size_t, uint64_t) wraps modulo this. */
  const Uint64Modulus: int := 0x1_0000_0000_0000_0000

  datatype Option<+T> = None | Some(value: T)

  /** The sound server's sample formats (pa_sample_format_t), including the invalid marker. */
  datatype PaSampleFormat =
    | PaU8 | PaAlaw | PaUlaw
    | PaS16LE | PaS16BE
    | PaFloat32LE | PaFloat32BE
    | PaS32LE | PaS32BE
    | PaS24LE | PaS24BE
    | PaS24In32LE | PaS24In32BE
    | PaInvalid

  /** The capture module's own sample formats (enum sample_format). */
  datatype SampleFormat = FormatUnknown | FormatU8Bit | Format16Bit | Format32Bit | FormatFloat

  /** enum speaker_layout: a named arrangement of capture channels. */
  datatype SpeakerLayout =
    | SpeakersUnknown
    | SpeakersMono
    | SpeakersStereo
    | Speakers2Point1
    | Speakers4Point0
    | Speakers4Point1
    | Speakers5Point1
    | Speakers7Point1
  {
    /** The integer the C enumeration gives each layout: 0 to 6 in order, then 8 for 7.1. */
    function Value(): nat
    {
      match this
      case SpeakersUnknown => 0
      case SpeakersMono => 1
      case SpeakersStereo => 2
      case Speakers2Point1 => 3
      case Speakers4Point0 => 4
      case Speakers4Point1 => 5
      case Speakers5Point1 => 6
      case Speakers7Point1 => 8
    }
  }

  /** The server's channel positions (pa_channel_position_t) that this backend uses. */
  datatype ChannelPosition =
    | PositionInvalid
    | PositionMono
    | FrontLeft
    | FrontRight
    | FrontCenter
    | RearCenter
    | RearLeft
    | RearRight
    | Lfe
    | SideLeft
    | SideRight
}
