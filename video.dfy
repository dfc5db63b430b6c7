/**
  * The audio/video encode sequencer of video/video.c. A `VideoCtx` holds the
  * two presentation-time counters, the buffer of source audio samples, the
  * settings the stream set-up fixes, and the state of the two encoders and of
  * the muxer output, which stand for the foreign libraries (see module Codec).
  * The ghost field `stamped` records every frame that received a timestamp, in
  * stamping order; `Valid()` ties it to the counters through `ClockInv`.
  */
module Video {
  import opened Wrappers
  import opened Arith
  import opened Codec
  import opened Timestamps

  /** AV_CHANNEL_LAYOUT_STEREO has two channels. */
  const AUDIO_CHANNELS: int := 2
  /** The largest int16_t value, the full-scale amplitude of the test tone. */
  const SHRT_MAX: int := 32767
  /** The test tone's volume: silence. */
  const TONE_VOLUME: real := 0.0
  /** Number of uint16_t values. */
  const UINT16_RANGE: int := 0x1_0000

  /** The other of the two streams. */
  function Other(s: Stream): (t: Stream)
    ensures t != s
  {
    if s == VideoStream then AudioStream else VideoStream
  }

  /** C's `%` on integers: the remainder takes the sign of the dividend. */
  function CRem(a: int, b: int): (r: int)
    requires b >= 1
    ensures a >= 0 ==> 0 <= r < b && r == a % b
    ensures a < 0 ==> -b < r <= 0
  {
    if a >= 0 then a % b else -((-a) % b)
  }

  /** Conversion of a double to an integer: truncation toward zero. */
  function Truncate(v: real): (n: int)
    ensures v >= 0.0 ==> 0.0 <= n as real <= v < n as real + 1.0
    ensures v < 0.0 ==> n as real - 1.0 < v <= n as real <= 0.0
  {
    if v >= 0.0 then v.Floor else -((-v).Floor)
  }

  /**
    * Storing a double into a uint16_t: truncation toward zero when the value
    * fits. C leaves an out-of-range value undefined; the model picks some
    * uint16_t value for it (the truncation reduced modulo 2^16), and states
    * only the range and the in-range case.
    */
  function ToUint16(v: real): (r: int)
    ensures 0 <= r < UINT16_RANGE
    ensures 0.0 <= v < UINT16_RANGE as real ==> r == Truncate(v)
  {
    Truncate(v) % UINT16_RANGE
  }

  /**
    * The sample fill_test_audio_data computes for sample `i` of the frame that
    * starts at `audioPts`: the tone at the relative time ((i + audioPts) mod
    * rate) / rate, scaled by SHRT_MAX * volume. `tone(t)` stands for libm's
    * sin(2 * pi * 200 * t).
    */
  function ToneSample(i: int, audioPts: int, sampleRate: int, tone: real -> real): (v: int)
    requires sampleRate >= 1
    ensures 0 <= v < UINT16_RANGE
  {
    var relativeTime := CRem(i + audioPts, sampleRate) as real / sampleRate as real;
    ToUint16(tone(relativeTime) * (SHRT_MAX as real * TONE_VOLUME))
  }

  /** With volume 0.0 every sample of the test tone is 0, whatever the sine returns. */
  lemma SilentTone(i: int, audioPts: int, sampleRate: int, tone: real -> real)
    requires sampleRate >= 1
    ensures ToneSample(i, audioPts, sampleRate, tone) == 0
  {
  }

  /** The whole buffer: `frameSize` samples, each repeated once per channel, interleaved. */
  function ToneBuffer(frameSize: nat, channels: int, audioPts: int, sampleRate: int, tone: real -> real): (b: seq<int>)
    requires channels >= 1 && sampleRate >= 1
    ensures |b| == frameSize * channels
  {
    seq(frameSize * channels, k => ToneSample(k / channels, audioPts, sampleRate, tone))
  }

  /** Position i * channels + c of the buffer holds sample i, for every channel c. */
  lemma {:induction false} ChannelsAgree(frameSize: nat, channels: int, audioPts: int, sampleRate: int,
                                         tone: real -> real, i: int, c: int)
    requires channels >= 1 && sampleRate >= 1
    requires 0 <= i < frameSize && 0 <= c < channels
    ensures i * channels + c < frameSize * channels
    ensures ToneBuffer(frameSize, channels, audioPts, sampleRate, tone)[i * channels + c]
      == ToneSample(i, audioPts, sampleRate, tone)
  {
    MulOrder(i, frameSize, channels);
    DivByBounds(i * channels + c, channels, i);
  }

  /**
    * Frames are accounted for on stream `s`: the timestamps written to the
    * muxer for `s`, followed by those still queued in its encoder, are exactly
    * the timestamps stamped for `s`, in order.
    */
  ghost predicate Accounts(out: seq<Packet>, stamped: seq<Packet>, s: Stream, e: Encoder)
  {
    Filter(out, s) + e.pending == Filter(stamped, s)
  }

  /**
    * A successful send_frame keeps the account of its own stream: the frame is
    * stamped and the packets the encoder releases are written in order.
    */
  lemma SendKeepsAccount(out: seq<Packet>, stamped: seq<Packet>, e: Encoder,
                         s: Stream, frame: Option<int>, env: set<Op>)
    requires SendOutcome(e, s, frame, env).ret != -1
    requires Accounts(out, stamped, s, e)
    ensures var r := SendOutcome(e, s, frame, env);
      Accounts(out + r.written, stamped + Tagged(s, FrameList(frame)), s, r.enc)
  {
    var r := SendOutcome(e, s, frame, env);
    var f := FrameList(frame);
    var q := e.pending + f;
    var k := Ready(Accept(e, frame));
    assert r.written == Tagged(s, q[..k]) && r.enc.pending == q[k..];
    assert Filter(out + r.written, s) == Filter(out, s) + q[..k] by {
      FilterAppend(out, r.written, s);
      FilterTagged(s, s, q[..k]);
    }
    assert Filter(stamped + Tagged(s, f), s) == Filter(stamped, s) + f by {
      FilterAppend(stamped, Tagged(s, f), s);
      FilterTagged(s, s, f);
    }
    SplitQueue(Filter(out, s), e.pending, f, Filter(stamped, s), k);
  }

  /** Written-then-queued stays the account when the queue, with a frame added, is split at k. */
  lemma SplitQueue(written: seq<int>, pending: seq<int>, f: seq<int>, stamped: seq<int>, k: int)
    requires written + pending == stamped && 0 <= k <= |pending + f|
    ensures (written + (pending + f)[..k]) + (pending + f)[k..] == stamped + f
  {
    var q := pending + f;
    assert q[..k] + q[k..] == q;
  }

  /** ... and leaves the account of the other stream as it was. */
  lemma SendKeepsOtherAccount(out: seq<Packet>, stamped: seq<Packet>, e: Encoder, other: Encoder,
                              s: Stream, frame: Option<int>, env: set<Op>)
    requires SendOutcome(e, s, frame, env).ret != -1
    requires Accounts(out, stamped, Other(s), other)
    ensures var r := SendOutcome(e, s, frame, env);
      Accounts(out + r.written, stamped + Tagged(s, FrameList(frame)), Other(s), other)
  {
    var r := SendOutcome(e, s, frame, env);
    var f := FrameList(frame);
    var w := (e.pending + f)[..Ready(Accept(e, frame))];
    assert r.written == Tagged(s, w);
    assert Filter(out + Tagged(s, w), Other(s)) == Filter(out, Other(s)) by {
      FilterAppend(out, Tagged(s, w), Other(s));
      FilterTagged(s, Other(s), w);
    }
    assert Filter(stamped + Tagged(s, f), Other(s)) == Filter(stamped, Other(s)) by {
      FilterAppend(stamped, Tagged(s, f), Other(s));
      FilterTagged(s, Other(s), f);
    }
  }

  /** The library calls of frame submission and flushing. */
  predicate PerFrame(op: Op)
  {
    op.MakeWritable? || op.Convert? || op.SendToEncoder? || op.ReceivePacket? || op.WritePacket?
  }

  /** Every per-frame library call succeeds. */
  predicate CleanRun(env: set<Op>)
  {
    forall op | op in env :: !PerFrame(op)
  }

  /** In a clean run every receive and write succeeds, so the drain loop runs to the end. */
  lemma CleanDrain(s: Stream, env: set<Op>, j: nat, k: nat)
    requires CleanRun(env) && j <= k
    ensures DrainStopFrom(s, env, j, k) == Drained
  {
  }

  /** In a clean run send_frame succeeds on an encoder that still accepts input, and a flush ends in EOF. */
  lemma CleanSend(e: Encoder, s: Stream, frame: Option<int>, env: set<Op>)
    requires CleanRun(env) && !e.draining
    ensures SendOutcome(e, s, frame, env).ret == (if frame.None? then AVERROR_EOF else AVERROR_EAGAIN)
  {
    assert SendToEncoder(s) !in env;
    CleanDrain(s, env, 0, Ready(Accept(e, frame)));
  }

  /**
    * The drain loop of send_frame on an encoder that has accepted the frame:
    * receive a packet; stop on EAGAIN or EOF; write it; repeat. `j` counts the
    * packets received so far, which numbers the receive and write calls.
    */
  method DrainPackets(a: Encoder, s: Stream, env: set<Op>) returns (r: SendResult)
    ensures r == DrainOutcome(a, s, env)
  {
    ghost var k := Ready(a);
    ghost var d := DrainStopFrom(s, env, 0, k);
    var e := a;
    var written: seq<Packet> := [];
    var j := 0;
    while true
      invariant 0 <= j <= k && DrainStopFrom(s, env, j, k) == d
      invariant e == a.(pending := a.pending[j..]) && Ready(e) == k - j
      invariant written == Tagged(s, a.pending[..j])
      decreases k - j
    {
      if ReceivePacket(s, j) in env {
        return SendResult(-1, e, written);
      }
      if Ready(e) == 0 {
        return SendResult(if e.draining then AVERROR_EOF else AVERROR_EAGAIN, e, written);
      }
      var pts := e.pending[0];
      e := e.(pending := e.pending[1..]);
      if WritePacket(s, j) in env {
        return SendResult(-1, e, written);
      }
      assert a.pending[..j + 1] == a.pending[..j] + [pts];
      assert Tagged(s, a.pending[..j + 1]) == Tagged(s, a.pending[..j]) + [Packet(s, pts)];
      written := written + [Packet(s, pts)];
      j := j + 1;
    }
  }

  class VideoCtx {
    /** video_pts: the next video frame's timestamp, in frames. */
    var videoPts: int
    /** audio_pts: the next audio frame's timestamp, in samples. */
    var audioPts: int
    /** src_audio_data: frameSize * channels interleaved uint16_t samples. */
    var srcAudioData: array<int>

    /** The settings stream set-up fixes: time base 1/framerate, GOP size, audio rate, channels, samples per frame. */
    var width: int
    var height: int
    var framerate: int
    var gopSize: int
    var sampleRate: int
    var channels: int
    var frameSize: int

    /** The encoders, the packets handed to av_interleaved_write_frame, and whether close_all ran to the end. */
    var videoEnc: Encoder
    var audioEnc: Encoder
    var out: seq<Packet>
    var closed: bool

    /** Every frame stamped so far, in stamping order. */
    ghost var stamped: seq<Packet>

    ghost predicate Valid()
      reads this
    {
      && framerate >= 1 && gopSize == framerate / 4
      && sampleRate == SAMPLE_RATE && channels == AUDIO_CHANNELS
      && frameSize >= 1 && srcAudioData.Length == frameSize * channels
      && ClockInv(stamped, videoPts, audioPts, framerate, frameSize)
    }

    /** Both streams are accounted for. */
    ghost predicate Accounted()
      reads this
    {
      Accounts(out, stamped, VideoStream, videoEnc) && Accounts(out, stamped, AudioStream, audioEnc)
    }

    /** The encoder of stream `s`. */
    function Enc(s: Stream): Encoder
      reads this
    {
      if s == VideoStream then videoEnc else audioEnc
    }

    /** The settings and the buffer are the ones before. */
    twostate predicate SameSettings()
      reads this
    {
      && old(width) == width && old(height) == height && old(framerate) == framerate
      && old(gopSize) == gopSize && old(sampleRate) == sampleRate && old(channels) == channels
      && old(frameSize) == frameSize && old(srcAudioData) == srcAudioData
    }

    /** Everything but the encoder state and the muxer output is the one before. */
    twostate predicate OnlyCodecChanged()
      reads this
    {
      && SameSettings()
      && old(videoPts) == videoPts && old(audioPts) == audioPts
      && old(stamped) == stamped && old(closed) == closed
    }

    /**
      * The context malloc gives video_ctx_new, before the streams are set up.
      * malloc leaves the fields indeterminate; the model zeroes them, and the
      * stream set-up resets both counters before anything reads them.
      */
    constructor Allocate()
      ensures videoPts == 0 && audioPts == 0 && out == [] && stamped == [] && !closed
    {
      videoPts, audioPts := 0, 0;
      srcAudioData := new int[0];
      width, height, framerate, gopSize := 0, 0, 0, 0;
      sampleRate, channels, frameSize := 0, 0, 0;
      videoEnc := Encoder([], 0, false);
      audioEnc := Encoder([], 0, false);
      out := [];
      closed := false;
      stamped := [];
    }

    /**
      * The integer part of video_stream_init: the video counter starts at 0,
      * the time base is 1/framerate and a keyframe comes every framerate / 4
      * frames. The set-up fails when a library step fails, and with AVERROR(EINVAL)
      * when the time base is not positive, which avcodec_open2 refuses.
      */
    method VideoStreamInit(w: int, h: int, rate: int, delay: nat, env: set<Op>) returns (ret: int)
      modifies this
      ensures ret == 0 || ret < 0
      ensures ret < 0 <==> StreamSetup(VideoStream) in env || rate < 1
      ensures ret == 0 ==>
        && videoPts == 0 && framerate == rate && gopSize == rate / 4
        && width == w && height == h && videoEnc == Encoder([], delay, false)
      ensures audioPts == old(audioPts) && audioEnc == old(audioEnc) && sampleRate == old(sampleRate)
        && channels == old(channels) && frameSize == old(frameSize) && srcAudioData == old(srcAudioData)
        && out == old(out) && stamped == old(stamped) && closed == old(closed)
    {
      videoPts := 0;
      if StreamSetup(VideoStream) in env {
        return -1;
      }
      width, height := w, h;
      framerate := rate;
      gopSize := rate / 4;
      if rate < 1 {
        return LIBRARY_ERROR;
      }
      videoEnc := Encoder([], delay, false);
      return 0;
    }

    /**
      * The integer part of audio_stream_init: the audio counter starts at 0,
      * the rate and the stream time base denominator are 44100, the layout is
      * stereo, a frame holds the encoder's `encoderFrameSize` samples, and the
      * source buffer holds frameSize * channels samples. A failing step gives a
      * negative code: -1, or the code of the library call.
      */
    method AudioStreamInit(encoderFrameSize: int, delay: nat, env: set<Op>) returns (ret: int)
      requires encoderFrameSize >= 1
      modifies this
      ensures ret == 0 || ret < 0
      ensures ret < 0 <==> StreamSetup(AudioStream) in env || ResamplerSetup in env
      ensures ret == 0 ==>
        && audioPts == 0 && sampleRate == SAMPLE_RATE && channels == AUDIO_CHANNELS
        && frameSize == encoderFrameSize && audioEnc == Encoder([], delay, false)
        && fresh(srcAudioData) && srcAudioData.Length == frameSize * channels
      ensures videoPts == old(videoPts) && videoEnc == old(videoEnc) && width == old(width)
        && height == old(height) && framerate == old(framerate) && gopSize == old(gopSize)
        && out == old(out) && stamped == old(stamped) && closed == old(closed)
    {
      audioPts := 0;
      if StreamSetup(AudioStream) in env {
        return -1;
      }
      sampleRate := SAMPLE_RATE;
      channels := AUDIO_CHANNELS;
      frameSize := encoderFrameSize;
      audioEnc := Encoder([], delay, false);
      if ResamplerSetup in env {
        return -1;
      }
      srcAudioData := new int[frameSize * channels];
      return 0;
    }

    /** Store the new state of the encoder of `s`. */
    method SetEnc(s: Stream, e: Encoder)
      modifies this
      ensures Enc(s) == e && Enc(Other(s)) == old(Enc(Other(s))) && out == old(out)
      ensures OnlyCodecChanged()
    {
      if s == VideoStream {
        videoEnc := e;
      } else {
        audioEnc := e;
      }
    }

    /**
      * send_frame: hand `frame` (None for the NULL flush frame) to the encoder
      * of `s`, then receive and write packets until the encoder answers EAGAIN
      * or EOF. The result and the new state are those of `SendOutcome`.
      */
    method SendFrame(s: Stream, frame: Option<int>, env: set<Op>) returns (ret: int)
      modifies this
      ensures var r := SendOutcome(old(Enc(s)), s, frame, env);
        ret == r.ret && Enc(s) == r.enc && out == old(out) + r.written
      ensures Enc(Other(s)) == old(Enc(Other(s)))
      ensures OnlyCodecChanged()
    {
      var e := Enc(s);
      if SendToEncoder(s) in env || e.draining {
        return -1;
      }
      var r := DrainPackets(Accept(e, frame), s, env);
      SetEnc(s, r.enc);
      out := out + r.written;
      return r.ret;
    }

    /**
      * fill_test_audio_data: sample i of the frame goes to the `channels`
      * consecutive positions from i * channels, through a pointer that
      * advances by one per write.
      */
    method FillTestAudioData(tone: real -> real)
      requires Valid()
      modifies srcAudioData
      ensures srcAudioData[..] == ToneBuffer(frameSize, channels, audioPts, sampleRate, tone)
      ensures forall k | 0 <= k < srcAudioData.Length :: srcAudioData[k] == 0
    {
      var data := srcAudioData;
      ghost var want := ToneBuffer(frameSize, channels, audioPts, sampleRate, tone);
      var p := 0;
      var i := 0;
      while i < frameSize
        invariant 0 <= i <= frameSize && p == i * channels
        invariant forall k | 0 <= k < p :: data[k] == want[k]
      {
        var v := ToneSample(i, audioPts, sampleRate, tone);
        var c := 0;
        while c < channels
          invariant 0 <= c <= channels && p == i * channels + c
          invariant forall k | 0 <= k < p :: data[k] == want[k]
        {
          ChannelsAgree(frameSize, channels, audioPts, sampleRate, tone, i, c);
          data[p] := v;
          p := p + 1;
          c := c + 1;
        }
        i := i + 1;
      }
      assert data[..] == want;
      forall k | 0 <= k < data.Length
        ensures data[k] == 0
      {
        SilentTone(k / channels, audioPts, sampleRate, tone);
      }
    }

    /**
      * The start of one pass of the catch-up loop: fill the source buffer with
      * the test tone, make the audio frame writable and convert the samples
      * into it.
      */
    method PrepareAudioFrame(env: set<Op>, tone: real -> real) returns (ret: int)
      requires Valid()
      modifies srcAudioData
      ensures ret == (if MakeWritable(AudioStream) in env then -1
                      else if Convert(AudioStream) in env then LIBRARY_ERROR else 0)
      ensures forall k | 0 <= k < srcAudioData.Length :: srcAudioData[k] == 0
    {
      FillTestAudioData(tone);
      if MakeWritable(AudioStream) in env {
        return -1;
      }
      if Convert(AudioStream) in env {
        return LIBRARY_ERROR;
      }
      return 0;
    }

    /**
      * One audio frame of the catch-up loop once its samples are converted:
      * stamp it with the audio counter, advance the counter by one frame, and
      * send it. The counter stays advanced whatever the send returns.
      */
    method StampAndSendAudio(env: set<Op>) returns (ret: int)
      requires Valid() && !closed && AudioBefore(audioPts, videoPts, framerate)
      modifies this
      ensures Valid() && SameSettings() && !closed
      ensures videoPts == old(videoPts) && videoEnc == old(videoEnc)
      ensures stamped == old(stamped) + [Packet(AudioStream, old(audioPts))]
      ensures audioPts == old(audioPts) + frameSize
      ensures var r := SendOutcome(old(audioEnc), AudioStream, Some(old(audioPts)), env);
        ret == r.ret && audioEnc == r.enc && out == old(out) + r.written
      ensures ret != -1 && old(Accounted()) ==> Accounted()
    {
      var pts := audioPts;
      StampAudio(stamped, videoPts, audioPts, framerate, frameSize);
      stamped := stamped + [Packet(AudioStream, pts)];
      audioPts := audioPts + frameSize;
      ghost var accounted := old(Accounted());
      ret := SendFrame(AudioStream, Some(pts), env);
      if ret != -1 && accounted {
        assert Tagged(AudioStream, FrameList(Some(pts))) == [Packet(AudioStream, pts)];
        SendKeepsAccount(old(out), old(stamped), old(audioEnc), AudioStream, Some(pts), env);
        SendKeepsOtherAccount(old(out), old(stamped), old(audioEnc), videoEnc, AudioStream, Some(pts), env);
      }
    }

    /**
      * One pass of the catch-up loop, entered while audio is behind: prepare
      * the frame, then stamp and send it. `stamped` is true when the frame got
      * its timestamp, which then extends the run by one.
      */
    method CatchUpStep(env: set<Op>, tone: real -> real, ghost s0: seq<Packet>, ghost a0: int, ghost run: nat)
      returns (ret: int, ghost stampedOne: bool)
      requires Valid() && !closed && AudioBefore(audioPts, videoPts, framerate)
      requires AudioRun(s0, a0, videoPts, framerate, frameSize, run, stamped, audioPts)
      modifies this, srcAudioData
      ensures Valid() && SameSettings() && !closed
      ensures videoPts == old(videoPts) && videoEnc == old(videoEnc)
      ensures ret == 0 || ret == -1 || ret == LIBRARY_ERROR
      ensures stampedOne == (MakeWritable(AudioStream) !in env && Convert(AudioStream) !in env)
      ensures stampedOne ==> AudioRun(s0, a0, videoPts, framerate, frameSize, run + 1, stamped, audioPts)
      ensures stampedOne ==> audioPts == old(audioPts) + frameSize
      ensures !stampedOne ==>
        && ret != 0 && stamped == old(stamped) && audioPts == old(audioPts)
        && audioEnc == old(audioEnc) && out == old(out)
      ensures ret == 0 && old(Accounted()) ==> Accounted()
      ensures ret == 0 ==> !old(audioEnc).draining && !audioEnc.draining
      ensures CleanRun(env) && !old(audioEnc).draining ==> ret == 0
    {
      ret := PrepareAudioFrame(env, tone);
      if ret != 0 {
        return ret, false;
      }
      AudioRunStep(s0, a0, videoPts, framerate, frameSize, run, stamped, audioPts);
      ret := StampAndSendAudio(env);
      if ret != -1 {
        ret := 0;
      }
      stampedOne := true;
    }

    /**
      * The catch-up loop of video_send_frame: while the next audio frame starts
      * before the next video frame, fill the source buffer, convert it into the
      * audio frame, then stamp and send it. `run` is the number of frames stamped.
      */
    method CatchUpAudio(env: set<Op>, tone: real -> real) returns (ret: int, ghost run: nat)
      requires Valid() && !closed
      modifies this, srcAudioData
      ensures Valid() && SameSettings() && !closed
      ensures ret == 0 || ret == -1 || ret == LIBRARY_ERROR
      ensures videoPts == old(videoPts) && videoEnc == old(videoEnc)
      ensures AudioRun(old(stamped), old(audioPts), videoPts, framerate, frameSize, run, stamped, audioPts)
      ensures ret == 0 ==> !AudioBefore(audioPts, videoPts, framerate)
      ensures ret == 0 && old(Accounted()) ==> Accounted()
      ensures ret == 0 ==> audioEnc.draining == old(audioEnc).draining
      ensures CleanRun(env) && !old(audioEnc).draining ==> ret == 0
    {
      ret, run := 0, 0;
      ghost var s0, a0, vp, fr, fs := stamped, audioPts, videoPts, framerate, frameSize;
      ghost var accounted := Accounted();
      AudioRunStart(s0, a0, vp, fr, fs);
      AudioBehindVideo(audioPts, videoPts, framerate);
      while CompareTs(audioPts, 1, sampleRate, videoPts, 1, framerate) < 0
        invariant Valid() && SameSettings() && !closed
        invariant videoPts == vp && framerate == fr && frameSize == fs && videoEnc == old(videoEnc)
        invariant AudioRun(s0, a0, vp, fr, fs, run, stamped, audioPts)
        invariant accounted ==> Accounted()
        invariant audioEnc.draining == old(audioEnc).draining
        decreases vp * SAMPLE_RATE - audioPts * fr
      {
        AudioBehindVideo(audioPts, videoPts, framerate);
        ghost var stampedOne;
        ScaleStep(audioPts, frameSize, framerate);
        ret, stampedOne := CatchUpStep(env, tone, s0, a0, run);
        run := run + if stampedOne then 1 else 0;
        if ret != 0 {
          break;
        }
        AudioBehindVideo(audioPts, videoPts, framerate);
      }
      AudioBehindVideo(audioPts, videoPts, framerate);
    }

    /**
      * The video frame of a data submission once its image is converted: stamp
      * it with the video counter, move the counter on by one, and send it.
      */
    method StampAndSendVideo(env: set<Op>) returns (ret: int)
      requires Valid() && !closed && !AudioBefore(audioPts, videoPts, framerate)
      modifies this
      ensures Valid() && SameSettings() && !closed
      ensures audioPts == old(audioPts) && audioEnc == old(audioEnc)
      ensures stamped == old(stamped) + [Packet(VideoStream, old(videoPts))]
      ensures videoPts == old(videoPts) + 1
      ensures var r := SendOutcome(old(videoEnc), VideoStream, Some(old(videoPts)), env);
        ret == r.ret && videoEnc == r.enc && out == old(out) + r.written
      ensures ret != -1 ==> !videoEnc.draining
      ensures ret != -1 && old(Accounted()) ==> Accounted()
    {
      var pts := videoPts;
      StampVideo(stamped, videoPts, audioPts, framerate, frameSize);
      stamped := stamped + [Packet(VideoStream, pts)];
      videoPts := videoPts + 1;
      ghost var accounted := old(Accounted());
      ret := SendFrame(VideoStream, Some(pts), env);
      if ret != -1 && accounted {
        assert Tagged(VideoStream, FrameList(Some(pts))) == [Packet(VideoStream, pts)];
        SendKeepsAccount(old(out), old(stamped), old(videoEnc), VideoStream, Some(pts), env);
        SendKeepsOtherAccount(old(out), old(stamped), old(videoEnc), audioEnc, VideoStream, Some(pts), env);
      }
    }

    /**
      * The data branch of video_send_frame: audio catches up, the image is
      * converted into the video frame, the frame is stamped and sent, and the
      * new video counter is returned.
      */
    method SendData(env: set<Op>, tone: real -> real) returns (ret: int)
      requires Valid() && !closed
      modifies this, srcAudioData
      ensures Valid() && SameSettings() && !closed
      ensures old(videoPts) <= videoPts && old(audioPts) <= audioPts
      ensures ret >= 0 || ret == -1 || ret == LIBRARY_ERROR
      ensures CleanRun(env) && !old(audioEnc).draining && !old(videoEnc).draining ==> ret >= 0
      ensures ret >= 0 ==>
        && ret == videoPts
        && FrameStep(old(stamped), old(audioPts), old(videoPts), framerate, frameSize, stamped, audioPts, videoPts)
      ensures ret >= 0 && old(Accounted()) ==> Accounted()
      ensures ret >= 0 ==> !videoEnc.draining && audioEnc.draining == old(audioEnc).draining
    {
      var r;
      ghost var run;
      r, run := CatchUpAudio(env, tone);
      if r < 0 {
        return r;
      }
      if MakeWritable(VideoStream) in env {
        return -1;
      }
      if Convert(VideoStream) in env {
        return LIBRARY_ERROR;
      }
      ghost var mid, audio := stamped, audioPts;
      r := StampAndSendVideo(env);
      if r == -1 {
        return -1;
      }
      FrameStepIntro(old(stamped), old(audioPts), old(videoPts), framerate, frameSize, run, mid, audio);
      return videoPts;
    }

    /**
      * The flush branch of video_send_frame: flush audio; unless that ends in
      * EOF, return its code. Then flush video; on EOF run close_all and return 0,
      * whatever close_all returned.
      */
    method FlushStreams(env: set<Op>) returns (ret: int)
      requires Valid() && !closed
      modifies this
      ensures Valid() && SameSettings()
      ensures videoPts == old(videoPts) && audioPts == old(audioPts) && stamped == old(stamped)
      ensures ret == 0 || ret == -1
      ensures var ra := SendOutcome(old(audioEnc), AudioStream, None, env);
        var rv := SendOutcome(old(videoEnc), VideoStream, None, env);
        && audioEnc == ra.enc
        && (ra.ret != AVERROR_EOF ==>
              ret == ra.ret && !closed && videoEnc == old(videoEnc) && out == old(out) + ra.written)
        && (ra.ret == AVERROR_EOF ==>
              && videoEnc == rv.enc && out == old(out) + ra.written + rv.written
              && (rv.ret == -1 ==> ret == -1 && !closed)
              && (rv.ret != -1 ==> ret == 0 && closed == (WriteTrailer !in env)))
      ensures ret == 0 && old(Accounted()) ==>
        && Accounted() && videoEnc.pending == [] && audioEnc.pending == []
        && Filter(out, VideoStream) == Iota(videoPts)
        && Filter(out, AudioStream) == AudioSteps(0, audioPts / frameSize, frameSize)
    {
      ghost var accounted := Accounted();
      var r := SendFrame(AudioStream, None, env);
      if r != AVERROR_EOF {
        return r;
      }
      assert stamped + Tagged(AudioStream, FrameList(None)) == stamped;
      if accounted {
        SendKeepsAccount(old(out), stamped, old(audioEnc), AudioStream, None, env);
        SendKeepsOtherAccount(old(out), stamped, old(audioEnc), old(videoEnc), AudioStream, None, env);
      }
      ghost var out1 := out;
      r := SendFrame(VideoStream, None, env);
      if r == -1 {
        return -1;
      }
      assert stamped + Tagged(VideoStream, FrameList(None)) == stamped;
      if accounted {
        SendKeepsAccount(out1, stamped, old(videoEnc), VideoStream, None, env);
        SendKeepsOtherAccount(out1, stamped, old(videoEnc), audioEnc, VideoStream, None, env);
      }
      var closeResult := CloseAll(env);
      return 0;
    }

    /**
      * close_all: write the trailer first; only when that succeeds are the
      * encoders, frames, converters, the file and the muxer released.
      */
    method CloseAll(env: set<Op>) returns (ret: int)
      modifies this
      ensures ret == 0 || ret == LIBRARY_ERROR
      ensures ret == 0 <==> WriteTrailer !in env
      ensures closed == (old(closed) || ret == 0)
      ensures SameSettings() && videoPts == old(videoPts) && audioPts == old(audioPts)
        && stamped == old(stamped) && out == old(out) && videoEnc == old(videoEnc) && audioEnc == old(audioEnc)
    {
      if WriteTrailer in env {
        return LIBRARY_ERROR;
      }
      closed := true;
      return 0;
    }
  }

  /** One frame of `d >= 1` samples moves the scaled audio time on by at least one. */
  lemma ScaleStep(a: int, d: int, f: int)
    requires d >= 1 && f >= 1
    ensures (a + d) * f == a * f + d * f && d * f >= 1
  {
    MulOrder(0, d, f);
  }

  /**
    * video_ctx_new: allocate the muxer, set up the video stream, then the
    * audio stream, open the output file and write the header. The first
    * failing step gives NULL with a negative result; otherwise the context
    * is returned with result 0, both counters at 0 and nothing stamped.
    */
  method VideoCtxNew(w: int, h: int, framerate: int, encoderFrameSize: int,
                     videoDelay: nat, audioDelay: nat, env: set<Op>)
    returns (ctx: VideoCtx?, result: int)
    requires encoderFrameSize >= 1
    ensures ctx == null <==> result != 0
    ensures result <= 0
    ensures ctx == null <==>
      || AllocMuxer in env || StreamSetup(VideoStream) in env || framerate < 1
      || StreamSetup(AudioStream) in env || ResamplerSetup in env
      || OpenFile in env || WriteHeader in env
    ensures ctx != null ==>
      && fresh(ctx) && fresh(ctx.srcAudioData) && ctx.Valid() && ctx.Accounted()
      && !ctx.closed && ctx.videoPts == 0 && ctx.audioPts == 0 && ctx.out == [] && ctx.stamped == []
      && ctx.width == w && ctx.height == h && ctx.framerate == framerate && ctx.gopSize == framerate / 4
      && ctx.frameSize == encoderFrameSize
      && ctx.videoEnc == Encoder([], videoDelay, false) && ctx.audioEnc == Encoder([], audioDelay, false)
  {
    if AllocMuxer in env {
      return null, LIBRARY_ERROR;
    }
    var c := new VideoCtx.Allocate();
    var ret := c.VideoStreamInit(w, h, framerate, videoDelay, env);
    if ret < 0 {
      return null, ret;
    }
    ret := c.AudioStreamInit(encoderFrameSize, audioDelay, env);
    if ret < 0 {
      return null, ret;
    }
    if OpenFile in env || WriteHeader in env {
      return null, LIBRARY_ERROR;
    }
    ClockInvInitially(c.framerate, c.frameSize);
    return c, 0;
  }

  /**
    * video_send_frame. A missing context, or image data with a stride below 1,
    * gives -1 and changes nothing. With data, audio catches up with the video
    * counter, the image is converted, the video frame is stamped with the video
    * counter, which then moves on by one, and the frame is sent; the new video
    * counter is returned. Without data, audio is flushed, then video, and once
    * video reports end of stream close_all runs and 0 is returned, whether or not
    * the trailer could be written.
    */
  method VideoSendFrame(ctx: VideoCtx?, data: bool, stride: int, env: set<Op>, tone: real -> real)
    returns (ret: int)
    requires ctx != null ==> ctx.Valid() && !ctx.closed
    modifies if ctx == null then {} else {ctx, ctx.srcAudioData}
    ensures ctx == null || (data && stride < 1) ==> ret == -1
    ensures ctx != null && data && stride < 1 ==> unchanged(ctx) && unchanged(ctx.srcAudioData)
    ensures ctx != null ==> ctx.Valid() && ctx.SameSettings()
    ensures ctx != null ==> old(ctx.videoPts) <= ctx.videoPts && old(ctx.audioPts) <= ctx.audioPts
    // with data
    ensures ctx != null && data && stride >= 1 ==>
      && !ctx.closed
      && (ret >= 0 || ret == -1 || ret == LIBRARY_ERROR)
      && (CleanRun(env) && !old(ctx.audioEnc).draining && !old(ctx.videoEnc).draining ==> ret >= 0)
    ensures ctx != null && data && stride >= 1 && ret >= 0 ==>
      && ret == ctx.videoPts == old(ctx.videoPts) + 1
      && ret == |Filter(ctx.stamped, VideoStream)|
      && FrameStep(old(ctx.stamped), old(ctx.audioPts), old(ctx.videoPts), ctx.framerate, ctx.frameSize,
                   ctx.stamped, ctx.audioPts, ctx.videoPts)
      && (old(ctx.Accounted()) ==> ctx.Accounted())
      && !ctx.videoEnc.draining && ctx.audioEnc.draining == old(ctx.audioEnc.draining)
    // without data
    ensures ctx != null && !data ==>
      && ctx.videoPts == old(ctx.videoPts) && ctx.audioPts == old(ctx.audioPts) && ctx.stamped == old(ctx.stamped)
      && (ret == 0 || ret == -1)
    ensures ctx != null && !data ==>
      var ra := SendOutcome(old(ctx.audioEnc), AudioStream, None, env);
      var rv := SendOutcome(old(ctx.videoEnc), VideoStream, None, env);
      && ctx.audioEnc == ra.enc
      && (ra.ret != AVERROR_EOF ==>
            ret == ra.ret && !ctx.closed && ctx.videoEnc == old(ctx.videoEnc) && ctx.out == old(ctx.out) + ra.written)
      && (ra.ret == AVERROR_EOF ==>
            && ctx.videoEnc == rv.enc && ctx.out == old(ctx.out) + ra.written + rv.written
            && (rv.ret == -1 ==> ret == -1 && !ctx.closed)
            && (rv.ret != -1 ==> ret == 0 && ctx.closed == (WriteTrailer !in env)))
    ensures ctx != null && !data && ret == 0 && old(ctx.Accounted()) ==>
      && ctx.Accounted() && ctx.videoEnc.pending == [] && ctx.audioEnc.pending == []
      && Filter(ctx.out, VideoStream) == Iota(ctx.videoPts)
      && Filter(ctx.out, AudioStream) == AudioSteps(0, ctx.audioPts / ctx.frameSize, ctx.frameSize)
  {
    if ctx == null || (data && stride < 1) {
      return -1;
    }
    if data {
      ret := ctx.SendData(env, tone);
    } else {
      ret := ctx.FlushStreams(env);
    }
  }

  /**
    * video_ctx_free: flush and finalise through video_send_frame; a nonzero
    * result ends the process with that exit status. The status is -1 for a
    * missing context and for a failed flush of either stream; with every call
    * of the flush succeeding there is no exit.
    */
  method VideoCtxFree(ctx: VideoCtx?, env: set<Op>, tone: real -> real) returns (exitStatus: Option<int>)
    requires ctx != null ==> ctx.Valid() && !ctx.closed
    modifies if ctx == null then {} else {ctx, ctx.srcAudioData}
    ensures ctx == null ==> exitStatus == Some(-1)
    ensures exitStatus.Some? ==> exitStatus.value != 0
    ensures ctx != null ==>
      var ra := SendOutcome(old(ctx.audioEnc), AudioStream, None, env);
      var rv := SendOutcome(old(ctx.videoEnc), VideoStream, None, env);
      && exitStatus == (if ra.ret != AVERROR_EOF then Some(ra.ret) else if rv.ret == -1 then Some(-1) else None)
      && ctx.audioEnc == ra.enc
      && (ra.ret == AVERROR_EOF ==> ctx.videoEnc == rv.enc && ctx.out == old(ctx.out) + ra.written + rv.written)
    ensures ctx != null && CleanRun(env) && !old(ctx.audioEnc).draining && !old(ctx.videoEnc).draining ==>
      exitStatus.None?
    ensures ctx != null ==> ctx.Valid() && ctx.videoPts == old(ctx.videoPts) && ctx.audioPts == old(ctx.audioPts)
    ensures ctx != null && exitStatus.None? ==>
      && ctx.closed == (WriteTrailer !in env)
      && ctx.videoEnc.pending == [] && ctx.audioEnc.pending == []
      && (old(ctx.Accounted()) ==>
            && Filter(ctx.out, VideoStream) == Iota(ctx.videoPts)
            && Filter(ctx.out, AudioStream) == AudioSteps(0, ctx.audioPts / ctx.frameSize, ctx.frameSize))
  {
    if ctx != null && CleanRun(env) && !ctx.audioEnc.draining && !ctx.videoEnc.draining {
      CleanSend(ctx.audioEnc, AudioStream, None, env);
      CleanSend(ctx.videoEnc, VideoStream, None, env);
    }
    var res := VideoSendFrame(ctx, false, -1, env, tone);
    if res != 0 {
      return Some(res);
    }
    return None;
  }
}
