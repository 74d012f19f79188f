/** Translation of server-native sample formats and channel counts into the module's enumerations. */
module FormatMappers {
  import opened PulseTypes

  /** The server formats the capture module can represent. */
  const SupportedFormats: set<PaSampleFormat> := {PaU8, PaS16LE, PaS32LE, PaFloat32LE}

  /** The channel counts that have a named speaker layout. */
  const KnownCounts: set<int> := {1, 2, 3, 4, 5, 6, 8}

  /** pulse_to_sample_format: a known format exactly for the supported server formats. */
  function PulseToSampleFormat(format: PaSampleFormat): (r: SampleFormat)
    ensures r != FormatUnknown <==> format in SupportedFormats
  {
    match format
    case PaU8 => FormatU8Bit
    case PaS16LE => Format16Bit
    case PaS32LE => Format32Bit
    case PaFloat32LE => FormatFloat
    case _ => FormatUnknown
  }

  /** The server format a known module format stands for; the reverse direction of the mapping. */
  function SampleFormatToPulse(format: SampleFormat): (r: Option<PaSampleFormat>)
    ensures r.Some? <==> format != FormatUnknown
    ensures r.Some? ==> r.value in SupportedFormats
  {
    match format
    case FormatUnknown => None
    case FormatU8Bit => Some(PaU8)
    case Format16Bit => Some(PaS16LE)
    case Format32Bit => Some(PaS32LE)
    case FormatFloat => Some(PaFloat32LE)
  }

  /** Every supported server format survives the round trip through the module's enumeration. */
  lemma FormatRoundTrip(format: PaSampleFormat)
    requires format in SupportedFormats
    ensures SampleFormatToPulse(PulseToSampleFormat(format)) == Some(format)
  {
  }

  /** Every known module format is the image of exactly one server format. */
  lemma SampleFormatRoundTrip(format: SampleFormat)
    requires format != FormatUnknown
    ensures PulseToSampleFormat(SampleFormatToPulse(format).value) == format
  {
  }

  /** The four supported server formats map to pairwise distinct module formats. */
  lemma PulseToSampleFormatInjective(a: PaSampleFormat, b: PaSampleFormat)
    requires a in SupportedFormats && b in SupportedFormats
    requires PulseToSampleFormat(a) == PulseToSampleFormat(b)
    ensures a == b
  {
    FormatRoundTrip(a);
    FormatRoundTrip(b);
  }

  /** Every module format, UNKNOWN included, is the image of some server format. */
  lemma PulseToSampleFormatOnto(format: SampleFormat)
    ensures exists p :: PulseToSampleFormat(p) == format
  {
    var p := if format == FormatUnknown then PaInvalid else SampleFormatToPulse(format).value;
    assert PulseToSampleFormat(p) == format;
  }

  /** pulse_channels_to_speakers: a named layout exactly for the known counts, whose enum value is the count. */
  function ChannelsToSpeakers(channels: uint32): (r: SpeakerLayout)
    ensures r != SpeakersUnknown <==> channels in KnownCounts
    ensures r != SpeakersUnknown ==> r.Value() == channels
  {
    match channels
    case 1 => SpeakersMono
    case 2 => SpeakersStereo
    case 3 => Speakers2Point1
    case 4 => Speakers4Point0
    case 5 => Speakers4Point1
    case 6 => Speakers5Point1
    case 8 => Speakers7Point1
    case _ => SpeakersUnknown
  }

  /** The enumeration's numbering inverts the count-to-layout mapping for every named layout. */
  lemma SpeakersValueRoundTrip(speakers: SpeakerLayout)
    requires speakers != SpeakersUnknown
    ensures ChannelsToSpeakers(speakers.Value()) == speakers
  {
  }

  /** Every layout, UNKNOWN included, is the layout of some channel count. */
  lemma ChannelsToSpeakersOnto(speakers: SpeakerLayout)
    ensures exists c: uint32 :: ChannelsToSpeakers(c) == speakers
  {
    var c: uint32 := if speakers == SpeakersUnknown then 0 else speakers.Value();
    assert ChannelsToSpeakers(c) == speakers;
  }
}
