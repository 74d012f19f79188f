/** The format negotiation applied when the server describes the capture device (source_info_cb). */
module Negotiation {
  import opened PulseTypes
  import opened FormatMappers
  import opened ChannelMaps

  /** The device's native sample specification as the server reports it. */
  datatype SampleSpec = SampleSpec(format: PaSampleFormat, rate: uint32, channels: uint8)

  /** The four context fields negotiation writes: format, samples_per_sec, channels, speakers. */
  datatype Negotiated = Negotiated(format: PaSampleFormat, rate: uint32, channels: uint8, speakers: SpeakerLayout)

  /** The format used when the device's own is not supported. */
  const FallbackFormat: PaSampleFormat := PaFloat32LE

  /** The channel count used when the device's own has no layout. */
  const FallbackChannels: uint8 := 2

  /**
   * The fallback policy of source_info_cb, as written: an unsupported format becomes
   * 32-bit float, an unsupported channel count becomes 2 while the layout stays unknown.
   */
  function Negotiate(device: SampleSpec): (r: Negotiated)
    ensures PulseToSampleFormat(r.format) != FormatUnknown
    ensures r.format == if device.format in SupportedFormats then device.format else FallbackFormat
    ensures r.rate == device.rate
    ensures r.channels in KnownCounts
    ensures device.channels in KnownCounts ==>
              r.channels == device.channels && r.speakers.Value() == device.channels
    ensures device.channels !in KnownCounts ==>
              r.channels == FallbackChannels && r.speakers == SpeakersUnknown
  {
    var format := if PulseToSampleFormat(device.format) == FormatUnknown then FallbackFormat else device.format;
    var speakers := ChannelsToSpeakers(device.channels);
    var channels := if speakers == SpeakersUnknown then FallbackChannels else device.channels;
    Negotiated(format, device.rate, channels, speakers)
  }

  /** The values Negotiate can store: a known format, a known count, and that count's layout or the fallback pair. */
  predicate Storable(r: Negotiated)
  {
    PulseToSampleFormat(r.format) != FormatUnknown &&
    r.channels in KnownCounts &&
    (r.speakers == ChannelsToSpeakers(r.channels) ||
     (r.channels == FallbackChannels && r.speakers == SpeakersUnknown))
  }

  /** Negotiate yields exactly the storable values: each one comes from some device. */
  lemma NegotiateImage(r: Negotiated)
    ensures Storable(r) <==> exists device :: Negotiate(device) == r
  {
    if Storable(r) {
      var device := SampleSpec(r.format, r.rate, if r.speakers == SpeakersUnknown then 7 else r.channels);
      CountRoundTrip(r.channels);
      assert Negotiate(device) == r;
    }
  }

  /**
   * As written, the channel map later built from the stored layout declares the stored
   * channel count exactly when the device's count was supported; after the 2-channel
   * fallback the map declares no channels at all.
   */
  lemma MapAgreesOnlyForKnownCounts(device: SampleSpec)
    ensures var r := Negotiate(device);
            LayoutChannelCount(r.speakers) == r.channels <==> device.channels in KnownCounts
  {
    var r := Negotiate(device);
    CountRoundTrip(device.channels);
    assert r.speakers == ChannelsToSpeakers(device.channels);
  }

  /** A 7-channel device is negotiated to 2 channels with a channel map of 0 channels. */
  lemma SevenChannelDeviceMismatch()
    ensures var r := Negotiate(SampleSpec(PaS16LE, 48000, 7));
            r.channels == 2 && LayoutChannelCount(r.speakers) == 0
  {
  }

  /**
   * The negotiation the layout's documentation ("fallback is stereo") calls for: the same
   * as Negotiate, except that the 2-channel fallback also records the stereo layout.
   */
  function NegotiateStereoFallback(device: SampleSpec): (r: Negotiated)
    ensures r.format == Negotiate(device).format && r.rate == Negotiate(device).rate
    ensures r.channels == Negotiate(device).channels
    ensures device.channels in KnownCounts ==> r.speakers == Negotiate(device).speakers
    ensures r.speakers != SpeakersUnknown
  {
    var n := Negotiate(device);
    if n.speakers == SpeakersUnknown then n.(speakers := SpeakersStereo) else n
  }

  /** With the stereo fallback the channel map always declares the negotiated count. */
  lemma StereoFallbackMapAgrees(device: SampleSpec)
    ensures var r := NegotiateStereoFallback(device);
            LayoutChannelCount(r.speakers) == r.channels
  {
    var r := NegotiateStereoFallback(device);
    if device.channels in KnownCounts {
      MapAgreesOnlyForKnownCounts(device);
    }
  }

  /** Renegotiating a value stored by the corrected policy changes nothing. */
  lemma StereoFallbackIdempotent(device: SampleSpec)
    ensures var r := NegotiateStereoFallback(device);
            NegotiateStereoFallback(SampleSpec(r.format, r.rate, r.channels)) == r
  {
  }

  /** A 44.1 kHz stereo 16-bit device is kept as it is, with a front-left/front-right map. */
  lemma StereoS16Device()
    ensures Negotiate(SampleSpec(PaS16LE, 44100, 2)) == Negotiated(PaS16LE, 44100, 2, SpeakersStereo)
    ensures LayoutPositions(SpeakersStereo)[..LayoutChannelCount(SpeakersStereo)] == [FrontLeft, FrontRight]
  {
    LayoutMatchesDocumentation(SpeakersStereo);
  }
}
