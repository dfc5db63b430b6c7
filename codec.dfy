/**
  * The encoders and the muxer that video.c drives, reduced to what send_frame
  * observes: an encoder holds the timestamps of the frames it was given and has
  * not yet returned as packets, releases them in order once more than its
  * look-ahead are queued (all of them after end of stream is signalled), and
  * then reports end of stream. Library calls that can fail are named by `Op`;
  * a call fails exactly when its operation is in the environment `env` given
  * to the model for that call. The receives and writes of one send_frame call
  * are numbered, so any one of them can be the one that fails.
  */
module Codec {
  import opened Wrappers

  /** AVERROR(EAGAIN) on Linux: the encoder needs more input before it can return a packet. */
  const AVERROR_EAGAIN: int := -11
  /** AVERROR_EOF = -MKTAG('E', 'O', 'F', ' '): the encoder has returned its last packet. */
  const AVERROR_EOF: int := -0x2046_4F45
  /** The negative code a failing library call returns where video.c passes the library's code on. */
  const LIBRARY_ERROR: int := -22

  datatype Stream = VideoStream | AudioStream

  /** A timestamped frame or packet of one stream. */
  datatype Packet = Packet(stream: Stream, pts: int)

  /** Library operations whose failure video.c checks. */
  datatype Op =
    | AllocMuxer            // avformat_alloc_output_context2
    | StreamSetup(s: Stream) // encoder lookup, stream and context allocation, avcodec_open2, parameters, frame buffer
    | ResamplerSetup        // swr_alloc / swr_init
    | OpenFile              // avio_open
    | WriteHeader           // avformat_write_header
    | MakeWritable(s: Stream) // av_frame_make_writable
    | Convert(s: Stream)    // swr_convert (audio) or sws_scale (video)
    | SendToEncoder(s: Stream) // avcodec_send_frame
    | ReceivePacket(s: Stream, n: nat) // the n-th avcodec_receive_packet of one send_frame call, from 0
    | WritePacket(s: Stream, n: nat)   // the n-th av_interleaved_write_frame of one send_frame call, from 0
    | WriteTrailer          // av_write_trailer

  /** An encoder: queued frame timestamps, its look-ahead, and whether end of stream was signalled. */
  datatype Encoder = Encoder(pending: seq<int>, delay: nat, draining: bool)

  /** How many packets the encoder hands out before it answers EAGAIN or EOF. */
  function Ready(e: Encoder): (k: nat)
    ensures k <= |e.pending|
    ensures e.draining ==> k == |e.pending|
    ensures !e.draining ==> k + e.delay >= |e.pending|
  {
    if e.draining then |e.pending|
    else if |e.pending| > e.delay then |e.pending| - e.delay
    else 0
  }

  /** The timestamps a frame argument contributes: none for the NULL (flush) frame. */
  function FrameList(frame: Option<int>): seq<int>
  {
    if frame.Some? then [frame.value] else []
  }

  /** avcodec_send_frame on an encoder that still accepts input: queue the frame, or start draining on NULL. */
  function Accept(e: Encoder, frame: Option<int>): (e': Encoder)
    ensures e'.pending == e.pending + FrameList(frame)
    ensures e'.delay == e.delay
    ensures e'.draining == (e.draining || frame.None?)
  {
    match frame
    case None => e.(draining := true)
    case Some(pts) => e.(pending := e.pending + [pts])
  }

  /** Tag each timestamp with the stream, keeping the order. */
  function Tagged(s: Stream, ps: seq<int>): (r: seq<Packet>)
    ensures |r| == |ps|
    ensures forall i | 0 <= i < |r| :: r[i].stream == s && r[i].pts == ps[i]
  {
    seq(|ps|, i requires 0 <= i < |ps| => Packet(s, ps[i]))
  }

  /** What one send_frame call does to an encoder: its return code, the new encoder, the packets written. */
  datatype SendResult = SendResult(ret: int, enc: Encoder, written: seq<Packet>)

  /** How send_frame's drain loop ends: the i-th receive fails, the i-th write fails, or all packets are out. */
  datatype DrainStop = ReceiveFails(i: nat) | WriteFails(i: nat) | Drained

  /**
    * The end of the drain loop from its j-th receive on, with `k` packets ready
    * in all: receive j fails, or j == k and the encoder answers EAGAIN or EOF,
    * or write j fails, or the loop goes on with receive j + 1.
    */
  function DrainStopFrom(s: Stream, env: set<Op>, j: nat, k: nat): (d: DrainStop)
    requires j <= k
    ensures d.ReceiveFails? ==> j <= d.i <= k && ReceivePacket(s, d.i) in env
    ensures d.WriteFails? ==> j <= d.i < k && ReceivePacket(s, d.i) !in env && WritePacket(s, d.i) in env
    ensures d.Drained? ==> ReceivePacket(s, k) !in env
    ensures forall n | j <= n < (if d.Drained? then k else d.i) ::
      ReceivePacket(s, n) !in env && WritePacket(s, n) !in env
    decreases k - j
  {
    if ReceivePacket(s, j) in env then ReceiveFails(j)
    else if j == k then Drained
    else if WritePacket(s, j) in env then WriteFails(j)
    else DrainStopFrom(s, env, j + 1, k)
  }

  /**
    * The drain loop of send_frame on the encoder `a` that has accepted the
    * frame: every packet it has ready is received and written in order,
    * tagged with `s`. When the i-th receive fails, -1 comes after i packets
    * are written; when the i-th write fails, -1 comes after i packets are
    * written and packet i is taken from the encoder but lost. Otherwise the
    * code that ended the loop, EAGAIN or EOF, is returned.
    */
  function DrainOutcome(a: Encoder, s: Stream, env: set<Op>): (r: SendResult)
    ensures r.ret == -1 || r.ret == AVERROR_EAGAIN || r.ret == AVERROR_EOF
    ensures r.ret == -1 <==> !DrainStopFrom(s, env, 0, Ready(a)).Drained?
    ensures r.enc.draining == a.draining && r.enc.delay == a.delay
    ensures r.ret == -1 ==>
      var i := DrainStopFrom(s, env, 0, Ready(a)).i;
      && r.written == Tagged(s, a.pending[..i])
      && r.enc.pending == a.pending[(if DrainStopFrom(s, env, 0, Ready(a)).WriteFails? then i + 1 else i)..]
    ensures r.ret != -1 ==>
      && r.ret == (if a.draining then AVERROR_EOF else AVERROR_EAGAIN)
      && r.written == Tagged(s, a.pending[..Ready(a)]) && r.enc.pending == a.pending[Ready(a)..]
      && Ready(r.enc) == 0
  {
    var k := Ready(a);
    match DrainStopFrom(s, env, 0, k)
    case ReceiveFails(i) => SendResult(-1, a.(pending := a.pending[i..]), Tagged(s, a.pending[..i]))
    case WriteFails(i) => SendResult(-1, a.(pending := a.pending[i + 1..]), Tagged(s, a.pending[..i]))
    case Drained => SendResult(if a.draining then AVERROR_EOF else AVERROR_EAGAIN,
                               a.(pending := a.pending[k..]), Tagged(s, a.pending[..k]))
  }

  /**
    * send_frame for stream `s`: a rejected frame (the operation fails, or the
    * encoder already drains) gives -1 and changes nothing; otherwise the frame
    * is queued and the drain loop runs.
    */
  function SendOutcome(e: Encoder, s: Stream, frame: Option<int>, env: set<Op>): (r: SendResult)
    ensures r.ret == -1 || r.ret == AVERROR_EAGAIN || r.ret == AVERROR_EOF
    ensures r.ret == -1 <==>
      SendToEncoder(s) in env || e.draining || !DrainStopFrom(s, env, 0, Ready(Accept(e, frame))).Drained?
    ensures SendToEncoder(s) in env || e.draining ==> r == SendResult(-1, e, [])
    ensures r.ret == -1 && !(SendToEncoder(s) in env || e.draining) ==>
      var d := DrainStopFrom(s, env, 0, Ready(Accept(e, frame)));
      && r.written == Tagged(s, (e.pending + FrameList(frame))[..d.i])
      && r.enc.pending == (e.pending + FrameList(frame))[(if d.WriteFails? then d.i + 1 else d.i)..]
      && r.enc.draining == frame.None? && r.enc.delay == e.delay
    ensures r.ret != -1 ==> r.ret == (if r.enc.draining then AVERROR_EOF else AVERROR_EAGAIN)
    ensures r.ret != -1 ==> r.written == Tagged(s, (e.pending + FrameList(frame))[..Ready(Accept(e, frame))])
    ensures r.ret != -1 ==> r.enc.pending == (e.pending + FrameList(frame))[Ready(Accept(e, frame))..]
    ensures r.ret != -1 ==> r.enc.draining == frame.None? && r.enc.delay == e.delay && Ready(r.enc) == 0
  {
    if SendToEncoder(s) in env || e.draining then SendResult(-1, e, [])
    else DrainOutcome(Accept(e, frame), s, env)
  }

  /** On success nothing is lost or duplicated: written packets followed by the queue are the old queue plus the frame. */
  lemma SendConservesFrames(e: Encoder, s: Stream, frame: Option<int>, env: set<Op>)
    requires SendOutcome(e, s, frame, env).ret != -1
    ensures var r := SendOutcome(e, s, frame, env);
      forall i | 0 <= i < |r.written| :: r.written[i].stream == s
    ensures var r := SendOutcome(e, s, frame, env);
      Pts(r.written) + r.enc.pending == e.pending + FrameList(frame)
  {
    var r := SendOutcome(e, s, frame, env);
    var q := e.pending + FrameList(frame);
    var k := Ready(Accept(e, frame));
    assert Pts(r.written) == q[..k];
    assert q[..k] + q[k..] == q;
  }

  /** The timestamps of a packet list, in order. */
  function Pts(ps: seq<Packet>): (r: seq<int>)
    ensures |r| == |ps|
    ensures forall i | 0 <= i < |ps| :: r[i] == ps[i].pts
  {
    seq(|ps|, i requires 0 <= i < |ps| => ps[i].pts)
  }
}
