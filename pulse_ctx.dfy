/**
 * struct pulse_ctx and the two callbacks that update it: source_info_cb (negotiation)
 * and read_cb (frame delivery). Server handles are objects, so the callbacks' identity
 * checks compare references.
 */
module PulseBackend {
  import opened PulseTypes
  import opened Negotiation
  import opened FrameDelivery

  /** pa_threaded_mainloop: only the number of wake-up signals it received is kept. */
  class Mainloop {
    var signals: nat

    constructor ()
      ensures signals == 0
    {
      signals := 0;
    }

    /** pa_threaded_mainloop_signal. */
    method Signal()
      modifies this
      ensures signals == old(signals) + 1
    {
      signals := signals + 1;
    }
  }

  /** pa_context: a server connection, used only for its identity. */
  class Connection {
    constructor ()
    {
    }
  }

  /** pa_stream: a record stream; only the number of pa_stream_drop calls is kept. */
  class Stream {
    var drops: nat

    constructor ()
      ensures drops == 0
    {
      drops := 0;
    }

    /** pa_stream_drop: releases the fragment the last peek returned. */
    method Drop()
      modifies this
      ensures drops == old(drops) + 1
    {
      drops := drops + 1;
    }
  }

  /** The backend context: server handles and the negotiated format. */
  class PulseContext {
    const mainloop: Mainloop
    var connection: Connection?
    var stream: Stream?
    var format: PaSampleFormat
    var samplesPerSec: uint32
    var bytesPerFrame: uint32
    var channels: uint8
    var speakers: SpeakerLayout

    /** The negotiated fields as one value. */
    function Negotiated(): Negotiated
      reads this
    {
      Negotiation.Negotiated(format, samplesPerSec, channels, speakers)
    }

    /** A context bound to a main loop and a connection, with every other field zeroed. */
    constructor (mainloop: Mainloop, connection: Connection)
      ensures this.mainloop == mainloop && this.connection == connection && stream == null
      ensures Negotiated() == Negotiation.Negotiated(PaU8, 0, 0, SpeakersUnknown) && bytesPerFrame == 0
    {
      this.mainloop := mainloop;
      this.connection := connection;
      stream := null;
      format := PaU8;
      samplesPerSec := 0;
      bytesPerFrame := 0;
      channels := 0;
      speakers := SpeakersUnknown;
    }

    /**
     * source_info_cb: for the live connection and an item that is not the end of the
     * list, stores the negotiated format, rate, channels and layout; a stale connection
     * or the end-of-list item leaves them alone. Every call for the live connection
     * signals the main loop.
     */
    method SourceInfo(pc: Connection, info: Option<SampleSpec>, eol: int)
      requires pc == connection && eol == 0 ==> info.Some?
      modifies this, mainloop
      ensures connection == old(connection) && stream == old(stream) && bytesPerFrame == old(bytesPerFrame)
      ensures Negotiated() == if pc == old(connection) && eol == 0 then Negotiate(info.value) else old(Negotiated())
      ensures mainloop.signals == old(mainloop.signals) + (if pc == old(connection) then 1 else 0)
    {
      if connection != pc {
        return;
      }
      if eol == 0 {
        var n := Negotiate(info.value);
        format := n.format;
        samplesPerSec := n.rate;
        channels := n.channels;
        speakers := n.speakers;
      }
      mainloop.Signal();
    }

    /**
     * read_cb: peeks the stream (the peek result and the clock reading are inputs),
     * then either returns at once for a stale stream, signals only for an empty peek,
     * drops a hole, or builds a frame and drops it. The frame is the callback's result.
     */
    method Read(ps: Stream, peek: Peek, now: uint64) returns (outcome: ReadOutcome)
      requires BuildsFrame(ps == stream, peek) ==> bytesPerFrame > 0 && samplesPerSec > 0
      modifies ps, mainloop
      ensures outcome == ReadStep(ps == stream, peek, format, samplesPerSec, bytesPerFrame, now)
      ensures ps.drops == old(ps.drops) + DropCount(outcome)
      ensures mainloop.signals == old(mainloop.signals) + SignalCount(outcome)
    {
      if stream != ps {
        return StaleStream;
      }
      if peek.nbytes == 0 {
        outcome := NoData;
      } else if !peek.hasBuffer {
        ps.Drop();
        outcome := Hole(peek.nbytes);
      } else {
        var frames := peek.nbytes / bytesPerFrame;
        var frame := AudioFrame(samplesPerSec, FormatMappers.PulseToSampleFormat(format), frames,
                                SampleTime.GetSampleTime(now, frames, samplesPerSec));
        ps.Drop();
        outcome := Delivered(frame);
      }
      mainloop.Signal();
    }
  }
}
