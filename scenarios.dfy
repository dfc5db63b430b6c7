/**
  * Whole jobs on an engine fresh from process start: the single-flight rule
  * of the begin calls, a photo from admission to on_save, and the two
  * discrepancies between the begin/thread code as written and what it is
  * evidently meant to do.
  */
module Scenarios {
  import opened Wrappers
  import opened Codec
  import opened Palette
  import opened Fractal

  /** The view a job on configuration `c` draws, from an engine whose Julia seed was never set. */
  function FirstView(c: FractalConfig): (v: View)
    ensures v.useJulia == c.useJulia && v.width == c.width && v.height == c.height
    ensures v.maxIterations == c.maxIterations
  {
    if c.useJulia then
      View(true, c.juliaX, c.juliaY, c.x, c.y, c.juliaZoom * c.height as real / 2.0, c.width, c.height, c.maxIterations)
    else
      View(false, c.x, c.y, 0.0, 0.0, c.zoom * c.height as real / 2.0, c.width, c.height, c.maxIterations)
  }

  /** While a photo is being drawn, a second photo and a video are both refused with MB_EXEC. */
  method SingleFlight(c: FractalConfig, vc: VideoConfig, name: string) returns (first: FractalError, photo: FractalError, video: FractalError)
    requires Supported(c)
    ensures first == MbOk && photo == MbExec && video == MbExec
  {
    var e := new Engine.Init();
    var job, videoJob;
    first, job := e.BeginPhoto(Some(c), Some(name), true, true);
    photo, job := e.BeginPhoto(Some(c), Some(name), false, true);
    video, videoJob := e.BeginVideo(Some(c), Some(vc), Some(name), true, true);
  }

  /**
    * A photo job from fractal_begin_photo to on_save: progress 0 and the
    * result of the write are reported, the buffer holds the image of the
    * configuration, every row was counted, and the engine takes new jobs.
    */
  method PhotoJob(c: FractalConfig, name: string, written: bool) returns (r: FractalError, image: seq<Byte>, events: seq<Event>, busy: bool)
    requires Supported(c)
    ensures r == MbOk && !busy
    ensures image == Image(FirstView(c), Table(c.maxIterations))
    ensures events == [Progress(0.0), Saved(written)]
  {
    var e := new Engine.Init();
    var job;
    r, job := e.BeginPhoto(Some(c), Some(name), true, true);
    assert e.Current() == FirstView(c);
    e.PhotoThread(job.value, written);
    image, events, busy := e.imageData[..], e.events, e.busy;
  }

  /** fractal_begin_photo as written, without a progress callback, calls through NULL after acceptance. */
  method PhotoWithoutProgressAsWritten(c: FractalConfig, name: string) returns (r: Option<FractalError>)
    requires Supported(c)
    ensures r.None?
  {
    var e := new Engine.Init();
    var job;
    r, job := e.BeginPhotoAsWritten(Some(c), Some(name), false, true);
  }

  /** With the callback optional, the same call is accepted and reports nothing before the image is saved. */
  method PhotoWithoutProgress(c: FractalConfig, name: string, written: bool) returns (r: FractalError, events: seq<Event>)
    requires Supported(c)
    ensures r == MbOk && events == [Saved(written)]
  {
    var e := new Engine.Init();
    var job;
    r, job := e.BeginPhoto(Some(c), Some(name), false, true);
    e.PhotoThread(job.value, written);
    events := e.events;
  }

  /**
    * video_thread as written: once video_ctx_new has failed (here, the output
    * file cannot be opened), on_save reports the failure but the engine
    * stays busy, so the next photo is refused with MB_EXEC.
    */
  method StuckAfterFailedVideoAsWritten(c: FractalConfig, vc: VideoConfig, name: string, lib: Library, stopAfter: nat)
    returns (outcome: VideoOutcome, next: FractalError)
    requires Supported(c) && lib.frameSize >= 1 && OpenFile in lib.openEnv
    ensures outcome == OpenFailed && next == MbExec
  {
    var e := new Engine.Init();
    var r, job := e.BeginVideo(Some(c), Some(vc), Some(name), true, true);
    outcome := e.VideoThreadAsWritten(job.value, lib, stopAfter);
    var photo;
    next, photo := e.BeginPhoto(Some(c), Some(name), true, true);
  }

  /** With the engine released on the failure paths, the same next photo is accepted. */
  method FreeAfterFailedVideo(c: FractalConfig, vc: VideoConfig, name: string, lib: Library, stopAfter: nat)
    returns (outcome: VideoOutcome, next: FractalError)
    requires Supported(c) && lib.frameSize >= 1 && OpenFile in lib.openEnv
    ensures outcome == OpenFailed && next == MbOk
  {
    var e := new Engine.Init();
    var r, job := e.BeginVideo(Some(c), Some(vc), Some(name), true, true);
    outcome := e.VideoThread(job.value, lib, stopAfter);
    var photo;
    next, photo := e.BeginPhoto(Some(c), Some(name), true, true);
  }

  /**
    * A video whose every library call succeeds, stopped after `stopAfter`
    * frames: it completes, reports progress 0, then each submitted frame in
    * seconds, then a successful save, and the engine takes the next job.
    */
  method VideoJob(c: FractalConfig, vc: VideoConfig, name: string, lib: Library, stopAfter: nat)
    returns (outcome: VideoOutcome, events: seq<Event>, next: FractalError)
    requires Supported(c) && lib.frameSize >= 1 && CleanVideo(lib, vc.frameRate, c.width, stopAfter)
    ensures outcome == Completed && next == MbOk
    ensures events == [Progress(0.0)] + ProgressRun(stopAfter, vc.frameRate) + [Saved(true)]
  {
    var e := new Engine.Init();
    var r, job := e.BeginVideo(Some(c), Some(vc), Some(name), true, true);
    outcome := e.VideoThreadAsWritten(job.value, lib, stopAfter);
    events := e.events;
    var photo;
    next, photo := e.BeginPhoto(Some(c), Some(name), true, true);
  }
}
