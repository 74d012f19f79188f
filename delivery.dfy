/** The decision read_cb makes for each peek at the record stream. */
module FrameDelivery {
  import opened PulseTypes
  import opened FormatMappers
  import opened SampleTime
  import opened Negotiation

  /** What pa_stream_peek reports: a byte count and whether a buffer came with it. */
  datatype Peek = Peek(nbytes: uint64, hasBuffer: bool)

  /** struct audio_frame, without the borrowed data pointer. */
  datatype AudioFrame = AudioFrame(samplesPerSec: uint32, format: SampleFormat, frames: uint64, timestamp: uint64)

  /** The four ways a read callback can end. */
  datatype ReadOutcome =
    | StaleStream              // the callback's stream is not the live one: nothing is touched
    | NoData                   // the peek returned no bytes
    | Hole(bytes: uint64)      // bytes without a buffer: a gap in the capture, skipped
    | Delivered(frame: AudioFrame)

  /** How many times the outcome drops the peeked fragment from the stream. */
  function DropCount(o: ReadOutcome): nat
  {
    if o.Hole? || o.Delivered? then 1 else 0
  }

  /** How many times the outcome signals the threaded main loop. */
  function SignalCount(o: ReadOutcome): nat
  {
    if o.StaleStream? then 0 else 1
  }

  /** The division read_cb performs (frames and timestamp) is only reached when a buffer arrives. */
  predicate BuildsFrame(matched: bool, peek: Peek)
  {
    matched && peek.nbytes > 0 && peek.hasBuffer
  }

  /**
   * read_cb's decision: ignore a stale stream, skip an empty peek, drop a hole, or build
   * a frame of nbytes / bytes_per_frame frames stamped with the back-dated clock reading.
   */
  function ReadStep(matched: bool, peek: Peek, format: PaSampleFormat, rate: uint32,
                    bytesPerFrame: uint32, now: uint64): (o: ReadOutcome)
    requires BuildsFrame(matched, peek) ==> bytesPerFrame > 0 && rate > 0
    ensures o == StaleStream <==> !matched
    ensures o == NoData <==> matched && peek.nbytes == 0
    ensures o.Hole? <==> matched && peek.nbytes > 0 && !peek.hasBuffer
    ensures o.Hole? ==> o.bytes == peek.nbytes
    ensures o.Delivered? <==> BuildsFrame(matched, peek)
    ensures o.Delivered? ==>
              o.frame.frames * bytesPerFrame <= peek.nbytes < (o.frame.frames + 1) * bytesPerFrame &&
              o.frame.samplesPerSec == rate &&
              o.frame.format == PulseToSampleFormat(format) &&
              o.frame.timestamp == GetSampleTime(now, o.frame.frames, rate)
  {
    if !matched then StaleStream
    else if peek.nbytes == 0 then NoData
    else if !peek.hasBuffer then Hole(peek.nbytes)
    else
      var frames := peek.nbytes / bytesPerFrame;
      DivBounds(peek.nbytes, bytesPerFrame);
      Delivered(AudioFrame(rate, PulseToSampleFormat(format), frames, GetSampleTime(now, frames, rate)))
  }

  /** The fragment is dropped exactly once when the live stream had bytes, and never otherwise. */
  lemma DropExactlyOnce(matched: bool, peek: Peek, format: PaSampleFormat, rate: uint32,
                        bytesPerFrame: uint32, now: uint64)
    requires BuildsFrame(matched, peek) ==> bytesPerFrame > 0 && rate > 0
    ensures DropCount(ReadStep(matched, peek, format, rate, bytesPerFrame, now)) ==
            if matched && peek.nbytes > 0 then 1 else 0
  {
  }

  /** A frame's timestamp plus its duration is the clock reading, when the subtraction does not wrap. */
  lemma FrameEndsNow(matched: bool, peek: Peek, format: PaSampleFormat, rate: uint32,
                     bytesPerFrame: uint32, now: uint64)
    requires BuildsFrame(matched, peek) && bytesPerFrame > 0 && rate > 0
    requires SamplesToNs(peek.nbytes / bytesPerFrame, rate) <= now
    ensures var o := ReadStep(matched, peek, format, rate, bytesPerFrame, now);
            o.frame.timestamp <= now &&
            o.frame.timestamp + SamplesToNs(o.frame.frames, rate) == now
  {
  }

  /** Every frame built after negotiation carries a known sample format. */
  lemma NegotiatedFramesHaveKnownFormat(device: SampleSpec, peek: Peek, bytesPerFrame: uint32, now: uint64)
    requires BuildsFrame(true, peek) ==> bytesPerFrame > 0 && device.rate > 0
    ensures var n := Negotiate(device);
            var o := ReadStep(true, peek, n.format, n.rate, bytesPerFrame, now);
            o.Delivered? ==> o.frame.format != FormatUnknown
  {
  }

  /** A 4096-byte buffer of 4-byte frames at 44.1 kHz is 1024 frames stamped 23219954 ns before now. */
  lemma FrameExample(now: uint64)
    requires now >= 23219954
    ensures ReadStep(true, Peek(4096, true), PaS16LE, 44100, 4, now) ==
            Delivered(AudioFrame(44100, Format16Bit, 1024, now - 23219954))
  {
    DurationAt44100();
  }
}
