/** The channel map handed to the server when a record stream is opened (pulse_channel_map). */
module ChannelMaps {
  import opened PulseTypes
  import opened FormatMappers

  /** The server's limit on channels per map (PA_CHANNELS_MAX): the length of the position array. */
  const ChannelsMax: nat := 32

  /** The positions written into slots 0 to 7 before any layout-specific patch. */
  const DefaultPositions: seq<ChannelPosition> :=
    [FrontLeft, FrontRight, FrontCenter, Lfe, RearLeft, RearRight, SideLeft, SideRight]

  /** The (layout, slot) pairs where a layout patches a default position. */
  const Overrides: set<(SpeakerLayout, int)> :=
    {(SpeakersMono, 0), (Speakers2Point1, 2), (Speakers4Point0, 3), (Speakers4Point1, 4)}

  /** Slots 0 to 7 of the map built for a layout. */
  function LayoutPositions(speakers: SpeakerLayout): (m: seq<ChannelPosition>)
    ensures |m| == |DefaultPositions|
  {
    match speakers
    case SpeakersMono => DefaultPositions[0 := PositionMono]
    case Speakers2Point1 => DefaultPositions[2 := Lfe]
    case Speakers4Point0 => DefaultPositions[3 := RearCenter]
    case Speakers4Point1 => DefaultPositions[4 := RearCenter]
    case _ => DefaultPositions
  }

  /** The channel count the map declares for a layout; the unknown layout declares none. */
  function LayoutChannelCount(speakers: SpeakerLayout): (n: nat)
    ensures n <= |DefaultPositions|
    ensures n == 0 <==> speakers == SpeakersUnknown
  {
    match speakers
    case SpeakersUnknown => 0
    case SpeakersMono => 1
    case SpeakersStereo => 2
    case Speakers2Point1 => 3
    case Speakers4Point0 => 4
    case Speakers4Point1 => 5
    case Speakers5Point1 => 6
    case Speakers7Point1 => 8
  }

  /** The channels the speaker_layout enumeration documents for each layout, in order. */
  function DocumentedChannels(speakers: SpeakerLayout): (r: seq<ChannelPosition>)
    ensures |r| == speakers.Value()
  {
    match speakers
    case SpeakersUnknown => []
    case SpeakersMono => [PositionMono]
    case SpeakersStereo => [FrontLeft, FrontRight]
    case Speakers2Point1 => [FrontLeft, FrontRight, Lfe]
    case Speakers4Point0 => [FrontLeft, FrontRight, FrontCenter, RearCenter]
    case Speakers4Point1 => [FrontLeft, FrontRight, FrontCenter, Lfe, RearCenter]
    case Speakers5Point1 => [FrontLeft, FrontRight, FrontCenter, Lfe, RearLeft, RearRight]
    case Speakers7Point1 => DefaultPositions
  }

  /** The declared channels of the built map are exactly the documented ones, and their number is the enum value. */
  lemma LayoutMatchesDocumentation(speakers: SpeakerLayout)
    ensures LayoutChannelCount(speakers) == speakers.Value() == |DocumentedChannels(speakers)|
    ensures LayoutPositions(speakers)[..LayoutChannelCount(speakers)] == DocumentedChannels(speakers)
  {
  }

  /** A slot differs from its default exactly at the four listed overrides. */
  lemma OnlyListedOverrides(speakers: SpeakerLayout, k: nat)
    requires k < |DefaultPositions|
    ensures LayoutPositions(speakers)[k] != DefaultPositions[k] <==> (speakers, k) in Overrides
  {
  }

  /** Stereo, 5.1 and 7.1 keep every default position. */
  lemma DefaultLayoutsUnpatched(speakers: SpeakerLayout)
    requires speakers in {SpeakersStereo, Speakers5Point1, Speakers7Point1}
    ensures LayoutPositions(speakers) == DefaultPositions
  {
  }

  /** Count round trip: a known count maps to a layout whose map declares that count; any other count to 0. */
  lemma CountRoundTrip(c: uint32)
    ensures LayoutChannelCount(ChannelsToSpeakers(c)) == if c in KnownCounts then c else 0
  {
    var s := ChannelsToSpeakers(c);
    LayoutMatchesDocumentation(s);
  }

  /** A pa_channel_map: a declared channel count and a fixed array of positions. */
  class ChannelMap {
    var channels: uint8
    const positions: array<ChannelPosition>

    ghost predicate Valid()
      reads this
    {
      positions.Length == ChannelsMax
    }

    /** A zeroed map, as in a freshly allocated context. */
    constructor ()
      ensures Valid() && fresh(positions)
      ensures channels == 0
    {
      channels := 0;
      positions := new ChannelPosition[ChannelsMax];
    }

    /** pulse_channel_map: fills slots 0 to 7 for the layout, sets the count and returns 0. */
    method Build(speakers: SpeakerLayout) returns (ret: int)
      requires Valid()
      modifies this`channels, positions
      ensures Valid()
      ensures ret == 0
      ensures channels == LayoutChannelCount(speakers)
      ensures positions[..|DefaultPositions|] == LayoutPositions(speakers)
      ensures positions[|DefaultPositions|..] == old(positions[|DefaultPositions|..])
    {
      positions[0] := FrontLeft;
      positions[1] := FrontRight;
      positions[2] := FrontCenter;
      positions[3] := Lfe;
      positions[4] := RearLeft;
      positions[5] := RearRight;
      positions[6] := SideLeft;
      positions[7] := SideRight;

      match speakers {
        case SpeakersMono =>
          channels := 1;
          positions[0] := PositionMono;
        case SpeakersStereo =>
          channels := 2;
        case Speakers2Point1 =>
          channels := 3;
          positions[2] := Lfe;
        case Speakers4Point0 =>
          channels := 4;
          positions[3] := RearCenter;
        case Speakers4Point1 =>
          channels := 5;
          positions[4] := RearCenter;
        case Speakers5Point1 =>
          channels := 6;
        case Speakers7Point1 =>
          channels := 8;
        case SpeakersUnknown =>
          channels := 0;
      }
      ret := 0;
    }
  }
}
