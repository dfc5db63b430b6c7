/**
  * Presentation-timestamp arithmetic of the encode sequencer: comparing
  * timestamps of streams with different time bases, the timestamps each stream
  * receives, and the order of frames across the two streams.
  */
module Timestamps {
  import opened Arith
  import opened Codec

  /** The audio sample rate and audio time base denominator (video/video.c sets 44100 Hz). */
  const SAMPLE_RATE: int := 44100

  /**
    * av_compare_ts: the sign of a * aNum / aDen - b * bNum / bDen, computed exactly
    * for positive time bases: -1 when the first time is earlier, 1 when later, 0 when equal.
    */
  function CompareTs(a: int, aNum: int, aDen: int, b: int, bNum: int, bDen: int): (r: int)
    requires aNum >= 1 && aDen >= 1 && bNum >= 1 && bDen >= 1
    ensures r == -1 || r == 0 || r == 1
    ensures r < 0 <==> (a * aNum) as real / aDen as real < (b * bNum) as real / bDen as real
    ensures r == 0 <==> (a * aNum) as real / aDen as real == (b * bNum) as real / bDen as real
  {
    var lhs, rhs := a * aNum * bDen, b * bNum * aDen;
    RealCrossMultiply(a * aNum, aDen, b * bNum, bDen);
    if lhs < rhs then -1 else if lhs > rhs then 1 else 0
  }

  /** For positive denominators, x / dx < y / dy exactly when x * dy < y * dx. */
  lemma RealCrossMultiply(x: int, dx: int, y: int, dy: int)
    requires dx >= 1 && dy >= 1
    ensures x as real / dx as real < y as real / dy as real <==> x * dy < y * dx
    ensures x as real / dx as real == y as real / dy as real <==> x * dy == y * dx
  {
    var p, q := x as real / dx as real, y as real / dy as real;
    assert p * dx as real == x as real;
    assert q * dy as real == y as real;
    assert (x * dy) as real == p * (dx as real * dy as real);
    assert (y * dx) as real == q * (dx as real * dy as real);
  }

  /** The audio frame starting at `audioPts` samples starts before the video frame `videoPts` at `framerate`. */
  lemma AudioBehindVideo(audioPts: int, videoPts: int, framerate: int)
    requires framerate >= 1
    ensures CompareTs(audioPts, 1, SAMPLE_RATE, videoPts, 1, framerate) < 0
      <==> audioPts * framerate < videoPts * SAMPLE_RATE
  {
  }

  /** 0, 1, ..., n - 1: the timestamps of the first n video frames. */
  function Iota(n: nat): (r: seq<int>)
    ensures |r| == n
    ensures forall i | 0 <= i < n :: r[i] == i
  {
    seq(n, i => i)
  }

  /** from, from + step, ...: `count` consecutive audio frame timestamps, `step` samples apart. */
  function AudioSteps(from: int, count: nat, step: int): (r: seq<int>)
    ensures |r| == count
    ensures forall i | 0 <= i < count :: r[i] == from + i * step
  {
    seq(count, i => from + i * step)
  }

  /** The timestamps of the packets of stream `s`, in order. */
  function Filter(ps: seq<Packet>, s: Stream): seq<int>
  {
    if ps == [] then []
    else Filter(ps[..|ps| - 1], s) + (if ps[|ps| - 1].stream == s then [ps[|ps| - 1].pts] else [])
  }

  lemma {:induction false} FilterAppend(a: seq<Packet>, b: seq<Packet>, s: Stream)
    ensures Filter(a + b, s) == Filter(a, s) + Filter(b, s)
    decreases |b|
  {
    if b != [] {
      var b' := b[..|b| - 1];
      assert (a + b)[..|a + b| - 1] == a + b';
      var last := b[|b| - 1];
      var tail := if last.stream == s then [last.pts] else [];
      assert (a + b)[|a + b| - 1] == last;
      assert Filter(a + b, s) == Filter(a + b', s) + tail;
      assert Filter(b, s) == Filter(b', s) + tail;
      FilterAppend(a, b', s);
    } else {
      assert a + b == a;
    }
  }

  /** Tagging with `s` and selecting `s` again gives the list back; selecting the other stream gives nothing. */
  lemma {:induction false} FilterTagged(s: Stream, t: Stream, ps: seq<int>)
    ensures Filter(Tagged(s, ps), t) == if s == t then ps else []
    decreases |ps|
  {
    if ps != [] {
      var ps' := ps[..|ps| - 1];
      assert Tagged(s, ps)[..|ps| - 1] == Tagged(s, ps');
      FilterTagged(s, t, ps');
    }
  }

  /** Time bases: the video stream counts frames at `framerate`, the audio stream samples at 44100 Hz. */
  function Rate(s: Stream, framerate: int): int
  {
    if s == VideoStream then framerate else SAMPLE_RATE
  }

  /** p starts no later than q: p.pts / rate(p) <= q.pts / rate(q), cross-multiplied. */
  predicate NotLater(p: Packet, q: Packet, framerate: int)
  {
    p.pts * Rate(q.stream, framerate) <= q.pts * Rate(p.stream, framerate)
  }

  /** Frames in non-decreasing presentation time across both streams. */
  predicate TimeOrdered(ps: seq<Packet>, framerate: int)
  {
    forall i, j | 0 <= i < j < |ps| :: NotLater(ps[i], ps[j], framerate)
  }

  /**
    * What the sequencer keeps true of the frames it has stamped (`stamped`, in
    * stamping order) and its two counters: the video frames are 0, 1, ...,
    * videoPts - 1; the audio frames are 0, frameSize, ..., audioPts - frameSize;
    * the frames are in presentation-time order; every audio frame starts
    * strictly before the next video frame, and every video frame starts no later
    * than the next audio frame.
    */
  ghost predicate ClockInv(stamped: seq<Packet>, videoPts: int, audioPts: int, framerate: int, frameSize: int)
  {
    && framerate >= 1 && frameSize >= 1
    && 0 <= videoPts && 0 <= audioPts && audioPts % frameSize == 0
    && Filter(stamped, VideoStream) == Iota(videoPts)
    && Filter(stamped, AudioStream) == AudioSteps(0, audioPts / frameSize, frameSize)
    && TimeOrdered(stamped, framerate)
    && (forall i | 0 <= i < |stamped| && stamped[i].stream == AudioStream ::
          stamped[i].pts < audioPts && stamped[i].pts * framerate < videoPts * SAMPLE_RATE)
    && (forall i | 0 <= i < |stamped| && stamped[i].stream == VideoStream ::
          stamped[i].pts < videoPts && stamped[i].pts * SAMPLE_RATE <= audioPts * framerate)
  }

  /** Nothing stamped yet and both counters at zero: the state right after stream set-up. */
  lemma ClockInvInitially(framerate: int, frameSize: int)
    requires framerate >= 1 && frameSize >= 1
    ensures ClockInv([], 0, 0, framerate, frameSize)
  {
  }

  /** Stamping an audio frame while audio is behind video keeps the clock invariant. */
  lemma StampAudio(stamped: seq<Packet>, videoPts: int, audioPts: int, framerate: int, frameSize: int)
    requires ClockInv(stamped, videoPts, audioPts, framerate, frameSize)
    requires audioPts * framerate < videoPts * SAMPLE_RATE
    ensures ClockInv(stamped + [Packet(AudioStream, audioPts)], videoPts, audioPts + frameSize, framerate, frameSize)
  {
    var e := Packet(AudioStream, audioPts);
    var s' := stamped + [e];
    FilterAppend(stamped, [e], VideoStream);
    FilterAppend(stamped, [e], AudioStream);
    var n := audioPts / frameSize;
    ModOfStep(audioPts, frameSize);
    assert AudioSteps(0, n, frameSize) + [audioPts] == AudioSteps(0, n + 1, frameSize);
    MonotoneScale(audioPts, audioPts + frameSize, framerate);
    forall i, j | 0 <= i < j < |s'|
      ensures NotLater(s'[i], s'[j], framerate)
    {
      if j == |stamped| {
        if s'[i].stream == AudioStream {
          MonotoneScale(s'[i].pts, audioPts, SAMPLE_RATE);
        }
      }
    }
  }

  /** Stamping the next video frame once audio has caught up keeps the clock invariant. */
  lemma StampVideo(stamped: seq<Packet>, videoPts: int, audioPts: int, framerate: int, frameSize: int)
    requires ClockInv(stamped, videoPts, audioPts, framerate, frameSize)
    requires videoPts * SAMPLE_RATE <= audioPts * framerate
    ensures ClockInv(stamped + [Packet(VideoStream, videoPts)], videoPts + 1, audioPts, framerate, frameSize)
  {
    var e := Packet(VideoStream, videoPts);
    var s' := stamped + [e];
    FilterAppend(stamped, [e], VideoStream);
    FilterAppend(stamped, [e], AudioStream);
    assert Iota(videoPts) + [videoPts] == Iota(videoPts + 1);
    forall i, j | 0 <= i < j < |s'|
      ensures NotLater(s'[i], s'[j], framerate)
    {
      if j == |stamped| {
        if s'[i].stream == VideoStream {
          MonotoneScale(s'[i].pts, videoPts, framerate);
        }
      }
    }
  }

  /** The audio frame that starts at `audioPts` starts strictly before video frame `videoPts`. */
  predicate AudioBefore(audioPts: int, videoPts: int, framerate: int)
  {
    audioPts * framerate < videoPts * SAMPLE_RATE
  }

  /**
    * A catch-up run of `run` audio frames from `from` while video waits at
    * `videoPts`: the counter has moved on by `run` frames, the frames
    * from, from + frameSize, ... were stamped in that order after `stamped0`,
    * and each of them starts strictly before the waiting video frame.
    */
  ghost predicate AudioRun(stamped0: seq<Packet>, from: int, videoPts: int, framerate: int, frameSize: int,
                           run: nat, stamped: seq<Packet>, audioPts: int)
  {
    && audioPts == from + run * frameSize
    && stamped == stamped0 + Tagged(AudioStream, AudioSteps(from, run, frameSize))
    && forall k | 0 <= k < run :: AudioBefore(from + k * frameSize, videoPts, framerate)
  }

  /** An empty run. */
  lemma AudioRunStart(stamped0: seq<Packet>, from: int, videoPts: int, framerate: int, frameSize: int)
    ensures AudioRun(stamped0, from, videoPts, framerate, frameSize, 0, stamped0, from)
  {
    assert Tagged(AudioStream, AudioSteps(from, 0, frameSize)) == [];
  }

  /** Stamping one more frame while audio is still behind extends the run by one. */
  lemma AudioRunStep(stamped0: seq<Packet>, from: int, videoPts: int, framerate: int, frameSize: int,
                     run: nat, stamped: seq<Packet>, audioPts: int)
    requires AudioRun(stamped0, from, videoPts, framerate, frameSize, run, stamped, audioPts)
    requires AudioBefore(audioPts, videoPts, framerate)
    ensures AudioRun(stamped0, from, videoPts, framerate, frameSize, run + 1,
                     stamped + [Packet(AudioStream, audioPts)], audioPts + frameSize)
  {
    var steps := AudioSteps(from, run, frameSize);
    assert AudioSteps(from, run + 1, frameSize) == steps + [audioPts];
    assert Tagged(AudioStream, steps + [audioPts]) == Tagged(AudioStream, steps) + [Packet(AudioStream, audioPts)];
    assert audioPts + frameSize == from + (run + 1) * frameSize;
  }

  /**
    * What one successful data submission stamps: a catch-up run of audio
    * frames from `audio0`, each starting strictly before video frame `video0`,
    * ending once audio has caught up, then video frame `video0` itself; the
    * video counter moves on by exactly one.
    */
  ghost predicate FrameStep(stamped0: seq<Packet>, audio0: int, video0: int, framerate: int, frameSize: int,
                            stamped: seq<Packet>, audioPts: int, videoPts: int)
    requires frameSize >= 1
  {
    && videoPts == video0 + 1
    && audioPts >= audio0 && (audioPts - audio0) % frameSize == 0
    && |stamped| >= 1 && stamped[|stamped| - 1] == Packet(VideoStream, video0)
    && AudioRun(stamped0, audio0, video0, framerate, frameSize, (audioPts - audio0) / frameSize,
                stamped[..|stamped| - 1], audioPts)
    && !AudioBefore(audioPts, video0, framerate)
  }

  /** A run of `run` audio frames that caught up, followed by the video frame, is a frame step. */
  lemma FrameStepIntro(stamped0: seq<Packet>, audio0: int, video0: int, framerate: int, frameSize: int,
                       run: nat, mid: seq<Packet>, audioPts: int)
    requires frameSize >= 1
    requires AudioRun(stamped0, audio0, video0, framerate, frameSize, run, mid, audioPts)
    requires !AudioBefore(audioPts, video0, framerate)
    ensures FrameStep(stamped0, audio0, video0, framerate, frameSize,
                      mid + [Packet(VideoStream, video0)], audioPts, video0 + 1)
  {
    ModOfMultiplePlus(run, frameSize, 0);
    MonotoneScale(0, run, frameSize);
    var stamped := mid + [Packet(VideoStream, video0)];
    assert stamped[..|stamped| - 1] == mid;
  }

  lemma MonotoneScale(a: int, b: int, k: int)
    requires a <= b && k >= 1
    ensures a * k <= b * k
  {
  }

  lemma ModOfStep(x: int, d: int)
    requires d >= 1 && x % d == 0
    ensures (x + d) % d == 0 && (x + d) / d == x / d + 1 && x == (x / d) * d
  {
    ModOfMultiplePlus(x / d + 1, d, 0);
    assert x + d == (x / d + 1) * d;
  }
}
